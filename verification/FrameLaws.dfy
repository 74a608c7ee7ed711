/** Whole frames: they replay like the log they flatten to, and only a bump takes a
    session's eligibility away. */
module FrameLaws {
  import opened Results
  import opened Schema
  import opened BoardModel
  import opened Admission
  import opened BoardFold
  import opened BoardLaws
  import opened SessionModel
  import opened StateModel
  import opened Steps
  import opened SessionLaws
  import opened WorkLines
  import opened FlockLaws

  lemma {:induction false} FrameIsEntries(g: Genesis, log: seq<Sealed>, st: FlockState, f: Frame, i: nat)
    requires i <= |f| && Played(g, log) == Ok(st) && ReplayedFrom(st, f, i).Ok?
    ensures Played(g, log + f[i..]) == ReplayedFrom(st, f, i)
    decreases |f| - i
  {
    hide Replayed, DropsMember;
    if i == |f| {
      assert log + f[i..] == log;
    } else {
      var st' := Replayed(st, f[i]).value;
      assert (log + [f[i]])[..|log|] == log;
      FrameIsEntries(g, log + [f[i]], st', f, i + 1);
      assert log + [f[i]] + f[i + 1..] == log + f[i..];
    }
  }

  /** What rebuilds from frames also plays as the flat log, to the same state. */
  lemma {:induction false} RebuildIsPlay(g: Genesis, frames: seq<Frame>)
    requires Rebuilt(g, frames).Ok?
    ensures Played(g, Flat(frames)) == Rebuilt(g, frames)
  {
    hide ReplayedFrom;
    if |frames| > 0 {
      var init, f := frames[..|frames| - 1], frames[|frames| - 1];
      RebuildIsPlay(g, init);
      FrameIsEntries(g, Flat(init), Rebuilt(g, init).value, f, 0);
      assert f[0..] == f;
    }
  }

  lemma RebuiltInv(g: Genesis, frames: seq<Frame>)
    requires GenesisOk(g) && Rebuilt(g, frames).Ok?
    ensures Inv(Rebuilt(g, frames).value, g)
  {
    hide Rebuilt, Played, Inv, GenesisOk;
    RebuildIsPlay(g, frames);
    EveryLogKeepsLaws(g, Flat(frames));
  }

  lemma {:induction false} PrefixRebuilds(g: Genesis, frames: seq<Frame>, n: nat)
    requires n <= |frames| && Rebuilt(g, frames).Ok?
    ensures Rebuilt(g, frames[..n]).Ok?
    decreases |frames| - n
  {
    hide FrameTaken;
    if n == |frames| {
      assert frames[..n] == frames;
    } else {
      PrefixRebuilds(g, frames, n + 1);
      assert frames[..n + 1][..n] == frames[..n];
    }
  }

  // ------------------------------------------------------------------ eligibility

  predicate HasBump(f: Frame) {
    exists i :: 0 <= i < |f| && f[i].event.payload.kind.Epoch?
  }

  /** Only a session-end or a hand-off ends a session. */
  lemma LiveStays(t: SessionTable, c: Change, epoch: nat, server: Key, s: string)
    requires Legal(t, c, epoch, server) && Live(t, s) && !c.Over? && !c.HandedOff?
    ensures Live(Changed(t, c, epoch, server), s)
    ensures Changed(t, c, epoch, server).sessions[s].member == t.sessions[s].member
  {
    hide CertOk;
  }

  lemma EndsByKind(id: Id, ev: Event)
    requires KindOf(ev.body) == ev.kind
    ensures ChangeOf(id, ev).Over? ==> ev.kind.SessionEnd?
    ensures ChangeOf(id, ev).HandedOff? ==> ev.kind.Handoff?
  {
  }

  /** Only a roster changes the roster. */
  lemma RosterStays(st: FlockState, a: Intake)
    requires Passes(st, a) && !a.Ev().kind.Roster?
    ensures After(st, a).board.members == st.board.members
  {
    hide Check, FirstLink, Decide, Admitted, Resolve, Flagged, ClosedBy;
    BoardAfter(st, a);
  }

  lemma EntryKeepsEligible(st: FlockState, g: Genesis, x: Sealed)
    requires Inv(st, g) && Replayed(st, x).Ok?
    requires !x.event.payload.kind.SessionEnd? && !x.event.payload.kind.Handoff?
    requires x.event.payload.kind.Roster? ==> !DropsMember(st.board.members, Replayed(st, x).value.board.members)
    ensures Eligible(st) <= Eligible(Replayed(st, x).value)
  {
    hide Replayed, BoardInv, ChainOk, RowsOk, InvitesSpentOnce, ApprovalsSpentOnce, LinesOk, ResumesKept,
         VerifyAt, EntryOf, Grown, KindOf, ChainHead, Changed, Legal, ChangeOf, Passes, Taken, LastWord, Live;
    InvReplay(st, g, x);
    ReplayPasses(st, x);
    var a := IntakeOf(st, x);
    var st' := Replayed(st, x).value;
    if !x.event.payload.kind.Roster? {
      RosterStays(st, a);
    }
    forall s | s in Eligible(st)
      ensures s in Eligible(st')
    {
      EndsByKind(EventId(a.node), a.Ev());
      LiveStays(st.sessions, ChangeOf(EventId(a.node), a.Ev()), a.Epoch(), st.chain.serverPub, s);
      var m := st.sessions.sessions[s].member;
      var i :| 0 <= i < |st.board.members| && st.board.members[i].name == m;
      assert OnRoster(st'.board.members, st.board.members[i].name);
      assert Live(st'.sessions, s);
      LiveIsThere(st'.sessions, s);
    }
  }

  lemma LiveIsThere(t: SessionTable, s: string)
    requires Live(t, s)
    ensures s in t.sessions
  {
  }

  lemma {:induction false} TailKeepsEligible(st: FlockState, g: Genesis, f: Frame, i: nat)
    requires i <= |f| && Inv(st, g) && ReplayedFrom(st, f, i).Ok? && FrameShape(f) && !HasBump(f)
    ensures Eligible(st) <= Eligible(ReplayedFrom(st, f, i).value)
    decreases |f| - i
  {
    hide Replayed, Inv, DropsMember, Eligible;
    if i < |f| {
      assert KindAt(f, i + 1) != Some(Kind.Epoch);
      InvReplay(st, g, f[i]);
      EntryKeepsEligible(st, g, f[i]);
      TailKeepsEligible(Replayed(st, f[i]).value, g, f, i + 1);
    }
  }

  /** A committed frame without an epoch event takes no session's eligibility away. */
  lemma OnlyBumpsRevoke(g: Genesis, frames: seq<Frame>, f: Frame)
    requires GenesisOk(g) && Rebuilt(g, frames + [f]).Ok? && !HasBump(f)
    ensures Rebuilt(g, frames).Ok?
    ensures Eligible(Rebuilt(g, frames).value) <= Eligible(Rebuilt(g, frames + [f]).value)
  {
    hide ReplayedFrom, Inv, GenesisOk, Eligible, HasBump, FrameShape;
    assert (frames + [f])[..|frames|] == frames;
    RebuiltInv(g, frames);
    TailKeepsEligible(Rebuilt(g, frames).value, g, f, 0);
  }
}

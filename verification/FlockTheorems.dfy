/** The laws of the flock as a reader of any log may rely on them. */
module FlockTheorems {
  import opened Results
  import opened Schema
  import opened BoardModel
  import opened Admission
  import opened BoardFold
  import opened BoardLaws
  import opened SessionModel
  import opened StateModel
  import opened Steps
  import opened History
  import opened SessionLaws
  import opened Ratchet
  import opened WorkLines
  import opened FlockLaws

  // ------------------------------------------------------------------ the session table

  /** At most one session of a member is active, and it is the holder; a holder is never
      pending. */
  lemma OneActiveSession(g: Genesis, log: seq<Sealed>, s: string, s': string)
    requires GenesisOk(g) && Played(g, log).Ok?
    requires
      var t := Played(g, log).value.sessions;
      && s in t.sessions && t.sessions[s].status == Active
      && s' in t.sessions && t.sessions[s'].member == t.sessions[s].member
    ensures
      var t := Played(g, log).value.sessions;
      && Get(t.holders, t.sessions[s].member) == Some(s)
      && (s' != s ==> t.sessions[s'].status != Active)
      && (t.sessions[s'].status == Pending ==> Get(t.holders, t.sessions[s'].member) != Some(s'))
  {
    hide Played, BoardInv, ChainOk, InvitesSpentOnce, ApprovalsSpentOnce, CertsOk, LinesOk, ResumesKept, StartOk, InviteOk, VerifyAt;
    EveryLogKeepsLaws(g, log);
    var t := Played(g, log).value.sessions;
    assert RoleOk(t, s) && RoleOk(t, s') && HolderOk(t, t.sessions[s].member);
  }

  /** Sessions are never forgotten, Ended is absorbing, and an activation is final. */
  lemma {:induction false} EndedIsForever(g: Genesis, log: seq<Sealed>, n: nat, s: string)
    requires GenesisOk(g) && n <= |log| && Played(g, log).Ok?
    ensures Played(g, log[..n]).Ok?
    ensures s in Played(g, log[..n]).value.sessions.sessions ==>
              && s in Played(g, log).value.sessions.sessions
              && RowKept(Played(g, log[..n]).value.sessions.sessions[s], Played(g, log).value.sessions.sessions[s])
    decreases |log|
  {
    hide Replayed, GenesisOk;
    PrefixPlays(g, log, n);
    if n == |log| {
      assert log[..n] == log;
    } else {
      var init := log[..|log| - 1];
      assert init[..n] == log[..n];
      EndedIsForever(g, init, n, s);
      var st := Played(g, init).value;
      if s in st.sessions.sessions {
        EveryLogKeepsLaws(g, init);
        ReplayKeepsRow(st, g, log[|log| - 1], s);
      }
    }
  }

  lemma ReplayKeepsRow(st: FlockState, g: Genesis, x: Sealed, s: string)
    requires Inv(st, g) && Replayed(st, x).Ok? && s in st.sessions.sessions
    ensures s in Replayed(st, x).value.sessions.sessions
    ensures RowKept(st.sessions.sessions[s], Replayed(st, x).value.sessions.sessions[s])
  {
    hide Replayed, BoardInv, ChainOk, InvitesSpentOnce, ApprovalsSpentOnce, CertsOk, LinesOk, ResumesKept, StartOk, InviteOk,
         VerifyAt, EntryOf, Grown, KindOf, ChainHead, Changed, Legal, ChangeOf, RoleOk, HolderOk, RowKept, Passes, Taken, LastWord;
    InvReplay(st, g, x);
    var a := IntakeOf(st, x);
    assert RoleOk(st.sessions, s);
    RowStep(st.sessions, ChangeOf(EventId(a.node), a.Ev()), a.Epoch(), st.chain.serverPub, s);
  }

  // ------------------------------------------------------------------ spent once

  ghost predicate Consumed(st: FlockState, invite: Id) {
    invite in st.sessions.invites && st.sessions.invites[invite].consumed
  }

  lemma ReplayKeepsConsumed(st: FlockState, g: Genesis, x: Sealed, invite: Id)
    requires Inv(st, g) && Replayed(st, x).Ok? && Consumed(st, invite)
    ensures Consumed(Replayed(st, x).value, invite)
  {
    hide Replayed, BoardInv, ChainOk, InvitesSpentOnce, ApprovalsSpentOnce, CertsOk, LinesOk, ResumesKept, StartOk, RoleOk, HolderOk,
         VerifyAt, EntryOf, KindOf, ChainHead, Changed, Legal, Passes, Taken, LastWord;
    InvReplay(st, g, x);
    var a := IntakeOf(st, x);
    EntryEvent(st, a);
    assert InviteOk(st, invite);
    ConsumedStays(st.sessions, ChangeOf(EventId(a.node), a.Ev()), a.Epoch(), st.chain.serverPub, invite);
  }

  /** A session's start consumes an invite that was not. */
  lemma StartConsumes(st: FlockState, g: Genesis, x: Sealed)
    requires Inv(st, g) && Replayed(st, x).Ok? && x.event.payload.body.SessionStartBody?
    ensures InviteRef in x.event.payload.refs
    ensures !Consumed(st, x.event.payload.refs[InviteRef]) && Consumed(Replayed(st, x).value, x.event.payload.refs[InviteRef])
  {
    hide Replayed, BoardInv, ChainOk, RowsOk, InvitesSpentOnce, ApprovalsSpentOnce, CertsOk, LinesOk, ResumesKept,
         VerifyAt, EntryOf, KindOf, ChainHead, Passes, Taken, LastWord, Grown, CertOk;
    InvReplay(st, g, x);
    assert IntakeOf(st, x).Ev() == x.event.payload;
  }

  lemma {:induction false} ConsumedForever(g: Genesis, log: seq<Sealed>, n: nat, invite: Id)
    requires GenesisOk(g) && n <= |log| && Played(g, log).Ok?
    ensures Played(g, log[..n]).Ok?
    ensures Consumed(Played(g, log[..n]).value, invite) ==> Consumed(Played(g, log).value, invite)
    decreases |log|
  {
    hide Replayed, GenesisOk, Consumed, Inv;
    PrefixPlays(g, log, n);
    if n == |log| {
      assert log[..n] == log;
    } else {
      var init := log[..|log| - 1];
      assert init[..n] == log[..n];
      ConsumedForever(g, init, n, invite);
      if Consumed(Played(g, init).value, invite) {
        EveryLogKeepsLaws(g, init);
        ReplayKeepsConsumed(Played(g, init).value, g, log[|log| - 1], invite);
      }
    }
  }

  /** In no log do two session-starts consume one invite, or two hand-offs one approval. */
  lemma SpentOnce(g: Genesis, log: seq<Sealed>, i: nat, j: nat)
    requires GenesisOk(g) && Played(g, log).Ok? && i < j < |log|
    ensures
      var x, y := log[i].event.payload, log[j].event.payload;
      && (x.body.SessionStartBody? && y.body.SessionStartBody? ==>
            InviteRef in x.refs && InviteRef in y.refs && x.refs[InviteRef] != y.refs[InviteRef])
      && (x.body.HandoffBody? && y.body.HandoffBody? ==> ApprovalId(x.body.approval) != ApprovalId(y.body.approval))
  {
    hide Replayed, GenesisOk, Consumed, BoardInv, VerifyAt, RowsOk, InvitesSpentOnce, LinesOk, ResumesKept, CertsOk, Played;
    var x, y := log[i].event.payload, log[j].event.payload;
    EveryLogKeepsLaws(g, log);
    if x.body.SessionStartBody? && y.body.SessionStartBody? {
      EntryPlays(g, log, i);
      EntryPlays(g, log, j);
      StartConsumes(Played(g, log[..i]).value, g, log[i]);
      StartConsumes(Played(g, log[..j]).value, g, log[j]);
      assert log[..j][..i + 1] == log[..i + 1];
      ConsumedForever(g, log[..j], i + 1, x.refs[InviteRef]);
    }
    if x.body.HandoffBody? && y.body.HandoffBody? {
      var h := Hist(Played(g, log).value.board);
      assert h[i].event == x && h[j].event == y;
      assert Spends(h, i, ApprovalId(x.body.approval)) && Spends(h, j, ApprovalId(y.body.approval));
    }
  }

  /** Entry `i` of a log that plays, onto the state before it. */
  lemma EntryPlays(g: Genesis, log: seq<Sealed>, i: nat)
    requires GenesisOk(g) && Played(g, log).Ok? && i < |log|
    ensures Played(g, log[..i]).Ok? && Inv(Played(g, log[..i]).value, g)
    ensures Replayed(Played(g, log[..i]).value, log[i]).Ok?
    ensures Played(g, log[..i + 1]) == Replayed(Played(g, log[..i]).value, log[i])
  {
    hide Replayed, GenesisOk, Inv;
    PrefixPlays(g, log, i);
    PrefixPlays(g, log, i + 1);
    assert log[..i + 1][..i] == log[..i];
    EveryLogKeepsLaws(g, log[..i]);
  }

  // ------------------------------------------------------------------ the ratchet

  function BumpsIn(log: seq<Sealed>): nat {
    if |log| == 0 then 0
    else BumpsIn(log[..|log| - 1]) + if log[|log| - 1].event.payload.kind.Epoch? then 1 else 0
  }

  /** A replayed record carries the next index and the epoch its kind implies. */
  lemma ReplayAdvances(st: FlockState, s: Sealed)
    requires Replayed(st, s).Ok?
    ensures s.record.payload.index == st.chain.nextIndex
    ensures s.record.payload.epoch == st.chain.epoch + if s.event.payload.kind.Epoch? then 1 else 0
    ensures Replayed(st, s).value.chain.nextIndex == st.chain.nextIndex + 1
    ensures Replayed(st, s).value.chain.epoch == s.record.payload.epoch
  {
    hide CitedCert, Vet, Applied, Observed, Vouches;
  }

  /** The epoch is the number of bumps, in the chain and in every record. */
  lemma {:induction false} EpochCountsBumps(g: Genesis, log: seq<Sealed>)
    requires Played(g, log).Ok?
    ensures Played(g, log).value.chain.epoch == BumpsIn(log)
    ensures Played(g, log).value.chain.nextIndex == |log| + 1
    ensures forall i :: 0 <= i < |log| ==>
              log[i].record.payload.epoch == BumpsIn(log[..i + 1]) && log[i].record.payload.index == i + 1
  {
    hide Replayed;
    if |log| > 0 {
      var init := log[..|log| - 1];
      PrefixPlays(g, log, |log| - 1);
      EpochCountsBumps(g, init);
      ReplayAdvances(Played(g, init).value, log[|log| - 1]);
      forall i | 0 <= i < |log|
        ensures log[i].record.payload.epoch == BumpsIn(log[..i + 1]) && log[i].record.payload.index == i + 1
      {
        if i < |init| {
          assert init[i] == log[i] && init[..i + 1] == log[..i + 1];
        } else {
          assert log[..i + 1] == log;
        }
      }
    }
  }

  /** Entry `j` put this certificate in the log for that session. */
  predicate PutsDown(s: Sealed, session: string, cid: Id) {
    match s.event.payload.body
    case SessionStartBody(_, x, cert) => x == session && CertId(cert) == cid
    case RenewalBody(x, _, cert) => x == session && CertId(cert) == cid
    case _ => false
  }

  /** Whatever a session signed, at whatever point of whatever log: the session was active
      then, and the record cites a certificate an earlier entry put down for that session,
      bounded to exactly the record's epoch. */
  lemma SignedUnderLoggedCert(g: Genesis, log: seq<Sealed>, i: nat)
    requires GenesisOk(g) && Played(g, log).Ok? && i < |log|
    ensures Played(g, log[..i]).Ok? && Replayed(Played(g, log[..i]).value, log[i]).Ok?
    ensures
      var st := Played(g, log[..i]).value;
      var a := IntakeOf(st, log[i]);
      var cid := log[i].record.payload.cert;
      a.signer.class_.Session? ==>
        && log[i].event.payload.author in st.sessions.sessions
        && st.sessions.sessions[log[i].event.payload.author].status == Active
        && cid.CertId? && cid.cert.meta.caveats == Bounded(log[i].record.payload.epoch)
        && exists j :: 0 <= j < i && PutsDown(log[j], log[i].event.payload.author, cid)
  {
    hide Replayed, BoardInv, VerifyAt, RowsOk, InvitesSpentOnce, ApprovalsSpentOnce, LinesOk, ResumesKept, Effect, Grown,
         KindOf, ChainHead, EntryOf, CertsOk, Consistent;
    PrefixPlays(g, log, i);
    PrefixPlays(g, log, i + 1);
    assert log[..i + 1][..i] == log[..i];
    var st := Played(g, log[..i]).value;
    EveryLogKeepsLaws(g, log[..i]);
    InvReplay(st, g, log[i]);
    var a := IntakeOf(st, log[i]);
    if a.signer.class_.Session? {
      SignedAtItsOwnEpoch(st, a, Replayed(st, log[i]).value);
      var j :| LogsCert(Hist(st.board), j, a.Ev().author, a.record.payload.cert);
      assert Hist(st.board)[j].event == log[..i][j].event.payload;
      assert PutsDown(log[j], log[i].event.payload.author, log[i].record.payload.cert);
    }
  }

  /** `session`'s latest certificate is for an epoch already over. */
  ghost predicate IsBehind(st: FlockState, session: string) {
    session in st.sessions.sessions && st.sessions.sessions[session].epoch < st.chain.epoch
  }

  predicate Renews(s: Sealed, session: string) {
    s.event.payload.body.RenewalBody? && s.event.payload.body.session == session
  }

  /** What entry `i` was admitted as. */
  ghost function SignedBy(g: Genesis, log: seq<Sealed>, i: nat): Signer
    requires i < |log| && Played(g, log[..i]).Ok? && Replayed(Played(g, log[..i]).value, log[i]).Ok?
  {
    IntakeOf(Played(g, log[..i]).value, log[i]).signer
  }

  lemma BehindStep(st: FlockState, g: Genesis, x: Sealed, s: string)
    requires Inv(st, g) && Replayed(st, x).Ok? && IsBehind(st, s) && !Renews(x, s)
    ensures IsBehind(Replayed(st, x).value, s)
    ensures x.event.payload.author == s ==> !IntakeOf(st, x).signer.class_.Session?
  {
    hide Replayed, BoardInv, VerifyAt, InvitesSpentOnce, ApprovalsSpentOnce, LinesOk, ResumesKept, Effect, Grown, RowsOk,
         KindOf, ChainHead, EntryOf, CertsOk, Consistent;
    InvReplay(st, g, x);
    ReplayAdvances(st, x);
    ReplayKeepsRow(st, g, x, s);
    var a, st' := IntakeOf(st, x), Replayed(st, x).value;
    if st'.sessions.sessions[s].epoch != st.sessions.sessions[s].epoch {
      OnlyRenewalCatchesUp(st, a, st', s);
    }
    if x.event.payload.author == s {
      BehindSignsNothing(st, a, st');
    }
  }

  /** Once behind, a session signs nothing at all until its own renewal. */
  lemma {:induction false} BehindUntilRenewed(g: Genesis, log: seq<Sealed>, n: nat, s: string, i: nat)
    requires GenesisOk(g) && Played(g, log).Ok? && n <= i <= |log|
    requires Played(g, log[..n]).Ok? && IsBehind(Played(g, log[..n]).value, s)
    requires forall k :: n <= k < |log| ==> !Renews(log[k], s)
    ensures Played(g, log[..i]).Ok? && IsBehind(Played(g, log[..i]).value, s)
    ensures i < |log| ==> Replayed(Played(g, log[..i]).value, log[i]).Ok?
    ensures i < |log| && log[i].event.payload.author == s ==> !SignedBy(g, log, i).class_.Session?
    decreases i
  {
    hide Replayed, Inv, IsBehind, Renews, GenesisOk;
    PrefixPlays(g, log, i);
    if i > n {
      BehindUntilRenewed(g, log, n, s, i - 1);
      assert log[..i][..i - 1] == log[..i - 1];
      EveryLogKeepsLaws(g, log[..i - 1]);
      BehindStep(Played(g, log[..i - 1]).value, g, log[i - 1], s);
    }
    if i < |log| {
      PrefixPlays(g, log, i + 1);
      assert log[..i + 1][..i] == log[..i];
      EveryLogKeepsLaws(g, log[..i]);
      BehindStep(Played(g, log[..i]).value, g, log[i], s);
    }
  }

  /** An epoch bump cuts every session off until its own renewal: nothing it signs after the
      bump gets in before that. */
  lemma BumpCutsOff(g: Genesis, log: seq<Sealed>, n: nat, s: string, i: nat)
    requires GenesisOk(g) && Played(g, log).Ok? && n < i < |log| && log[n].event.payload.kind.Epoch?
    requires Played(g, log[..n + 1]).Ok? && s in Played(g, log[..n + 1]).value.sessions.sessions
    requires forall k :: n < k < |log| ==> !Renews(log[k], s)
    ensures Played(g, log[..i]).Ok? && Replayed(Played(g, log[..i]).value, log[i]).Ok?
    ensures log[i].event.payload.author == s ==> !SignedBy(g, log, i).class_.Session?
  {
    hide Replayed, BoardInv, VerifyAt, RowsOk, InvitesSpentOnce, ApprovalsSpentOnce, LinesOk, ResumesKept, Effect, Grown,
         KindOf, ChainHead, EntryOf, CertsOk, Consistent, Renews;
    PrefixPlays(g, log, n);
    assert log[..n + 1][..n] == log[..n];
    var st := Played(g, log[..n]).value;
    EveryLogKeepsLaws(g, log[..n]);
    InvReplay(st, g, log[n]);
    BumpLeavesAllBehind(st, IntakeOf(st, log[n]), Replayed(st, log[n]).value, s);
    BehindUntilRenewed(g, log, n + 1, s, i);
  }

  // ------------------------------------------------------------------ the chain

  /** What record `i` must have as its one parent: the record before it, or the genesis. */
  function LinkBefore(g: Genesis, log: seq<Sealed>, i: nat): Id
    requires i <= |log|
  {
    if i == 0 then GenesisId(g) else RecordId(log[i - 1].record)
  }

  lemma ReplayLinks(st: FlockState, s: Sealed)
    requires Replayed(st, s).Ok?
    ensures s.record.parents == {st.chain.prev} && s.record.payload.event == EventId(s.event)
    ensures SigOk(s.recordSig, st.chain.serverCert.key, RecordId(s.record))
    ensures Replayed(st, s).value.chain.prev == RecordId(s.record)
    ensures Replayed(st, s).value.chain.serverCert == st.chain.serverCert
  {
    hide CitedCert, Vet, Applied, Observed, VerifyAt, RootAgent;
  }

  /** Record `i` is the server's, names its event, and has the record before as its parent. */
  ghost predicate Linked(g: Genesis, log: seq<Sealed>, i: nat) {
    i < |log| ==>
      && log[i].record.parents == {LinkBefore(g, log, i)}
      && log[i].record.payload.event == EventId(log[i].event)
      && SigOk(log[i].recordSig, g.serverCert.key, RecordId(log[i].record))
  }

  /** The log is one signed hash chain, back to the genesis. */
  lemma {:induction false} RecordsAreOneChain(g: Genesis, log: seq<Sealed>)
    requires Played(g, log).Ok?
    ensures Played(g, log).value.chain.prev == LinkBefore(g, log, |log|)
    ensures Played(g, log).value.chain.serverCert == g.serverCert
    ensures forall i: nat {:trigger Linked(g, log, i)} :: Linked(g, log, i)
  {
    hide Replayed;
    if |log| > 0 {
      var init := log[..|log| - 1];
      RecordsAreOneChain(g, init);
      ReplayLinks(Played(g, init).value, log[|log| - 1]);
      forall i: nat
        ensures Linked(g, log, i)
      {
        assert Linked(g, init, i);
      }
    }
  }

  /** The two logs agree at `i` on the event and on the record that admitted it. */
  ghost predicate SameEntry(log: seq<Sealed>, log': seq<Sealed>, i: nat) {
    i < |log| && i < |log'| ==> log[i].event == log'[i].event && log[i].record == log'[i].record
  }

  /** A head pins its whole past: two logs of one flock that end in the same record are the
      same events, admitted by the same records, from the first on. */
  lemma {:induction false} HeadPinsHistory(g: Genesis, log: seq<Sealed>, log': seq<Sealed>)
    requires Played(g, log).Ok? && Played(g, log').Ok?
    requires LinkBefore(g, log, |log|) == LinkBefore(g, log', |log'|)
    ensures |log| == |log'|
    ensures forall i: nat {:trigger SameEntry(log, log', i)} :: SameEntry(log, log', i)
  {
    hide Replayed;
    if |log| > 0 && |log'| > 0 {
      var n, n' := |log| - 1, |log'| - 1;
      var init, init' := log[..n], log'[..n'];
      RecordsAreOneChain(g, log);
      RecordsAreOneChain(g, log');
      assert Linked(g, log, n) && Linked(g, log', n');
      assert LinkBefore(g, init, n) == LinkBefore(g, log, n);
      assert LinkBefore(g, init', n') == LinkBefore(g, log', n');
      OneParent(log[n].record.parents, LinkBefore(g, log, n), LinkBefore(g, log', n'));
      HeadPinsHistory(g, init, init');
      forall i: nat
        ensures SameEntry(log, log', i)
      {
        assert SameEntry(init, init', i);
      }
    }
  }

  lemma OneParent(parents: set<Id>, a: Id, b: Id)
    requires parents == {a} && parents == {b}
    ensures a == b
  {
    assert a in parents;
  }

  // ------------------------------------------------------------------ one line of work

  /** Event `i` of the log was signed by a session of member `m`. */
  ghost predicate WorkOf(h: seq<Entry>, i: int, m: string) {
    0 <= i < |h| && h[i].member == Some(m)
  }

  /** Events `i`, `j`, `k` of a member in that order: if one session signed the outer two,
      it signed the one between. */
  ghost predicate NotInterleaved(h: seq<Entry>, m: string, i: int, j: int, k: int) {
    i < j < k && WorkOf(h, i, m) && WorkOf(h, j, m) && WorkOf(h, k, m) ==>
      (h[i].event.author == h[k].event.author ==> h[j].event.author == h[i].event.author)
  }

  /** The sessions of a member never interleave: once another one has written, the first
      writes no more. */
  lemma SessionsNeverInterleave(st: FlockState, h: seq<Entry>, m: string, i: int, j: int, k: int)
    requires LinesOk(st, h)
    ensures NotInterleaved(h, m, i, j, k)
  {
    hide Line, LastBy, HandoffOk;
    if i < j < k && WorkOf(h, i, m) && WorkOf(h, j, m) && WorkOf(h, k, m) {
      assert WorkOk(h, st.sessions, i) && WorkOk(h, st.sessions, j) && WorkOk(h, st.sessions, k);
      assert LineOk(h, st.sessions, m);
      LineGrows(h, i, j, m);
      LineGrows(h, j, k, m);
      LineGrows(h, k, |h|, m);
      assert h[..|h|] == h;
      var l := Line(h, m);
      var x, y, z := |Line(h[..i], m)| - 1, |Line(h[..j], m)| - 1, |Line(h[..k], m)| - 1;
      assert l[x] == h[i].event.author && l[y] == h[j].event.author && l[z] == h[k].event.author;
    }
  }

  // ------------------------------------------------------------------ what a hand-off resumes

  /** A hand-off's `resume` is still the old session's last word. */
  ghost predicate ResumeOk(b: BoardState, h: seq<Entry>, t: SessionTable, i: int) {
    0 <= i < |h| && h[i].event.body.HandoffBody? ==>
      && h[i].event.body.from in t.sessions
      && h[i].event.body.resume == LastWord(b, h[i].event.body.from, t.sessions[h[i].event.body.from].start)
  }

  /** Nothing from `i` on, event `i` itself included, is authored by this key. */
  ghost predicate SilentFrom(h: seq<Entry>, i: nat, key: string) {
    forall j {:trigger h[j]} :: i <= j < |h| ==> h[j].event.author != key
  }

  lemma {:induction false} SilenceKeepsLast(h: seq<Entry>, i: nat, key: string)
    requires i <= |h|
    ensures SilentFrom(h, i, key) ==> LastBy(h, key) == LastBy(h[..i], key)
    ensures !SilentFrom(h, i, key) ==> exists j :: i <= j < |h| && LastBy(h, key) == Some(h[j].id)
  {
    if i == |h| {
      assert h[..i] == h;
    } else {
      var n := |h| - 1;
      var init := h[..n];
      assert init[..i] == h[..i];
      SilenceKeepsLast(init, i, key);
      assert SilentFrom(h, i, key) <==> SilentFrom(init, i, key) && h[n].event.author != key;
      if h[n].event.author != key && !SilentFrom(init, i, key) {
        var j :| i <= j < |init| && LastBy(init, key) == Some(init[j].id);
        assert h[j] == init[j];
      }
    }
  }

  lemma {:induction false} LastIsThere(h: seq<Entry>, key: string)
    ensures LastBy(h, key).Some? ==> exists j :: 0 <= j < |h| && h[j].id == LastBy(h, key).value
  {
    if |h| > 0 && h[|h| - 1].event.author != key {
      LastIsThere(h[..|h| - 1], key);
    }
  }

  /** Each event has its own id. */
  lemma IdsApart(b: BoardState, i: nat, j: nat)
    requires Consistent(b) && i < |b.order| && j < |b.order| && Hist(b)[i].id == Hist(b)[j].id
    ensures i == j
  {
    assert Filed(b, b.order[i]) && Filed(b, b.order[j]);
  }

  /**
   Exactly when a hand-off still resumes from the old session's last word: when no event
   from the hand-off on is authored by that session's key. The session itself is over, so
   only the server or a device could have such a key: the hand-off itself is the server's.
   */
  lemma ResumeHoldsExactly(g: Genesis, log: seq<Sealed>, i: nat)
    requires GenesisOk(g) && Played(g, log).Ok?
    ensures
      var st := Played(g, log).value;
      && Consistent(st.board)
      && var h := Hist(st.board);
      i < |h| && h[i].event.body.HandoffBody? ==>
        (ResumeOk(st.board, h, st.sessions, i) <==> SilentFrom(h, i, h[i].event.body.from))
  {
    hide Played, RosterWellFormed, RootsWellFormed, RowsOk, InvitesSpentOnce, ApprovalsSpentOnce, CertsOk, VerifyAt, Consistent,
         LineOk, WorkOk, HandoffOk, HeadsLatest, FirstCloserWins, TargetsFit, OneRosterLine, Locked, SilentFrom, LastBy;
    EveryLogKeepsLaws(g, log);
    var st := Played(g, log).value;
    var h, t := Hist(st.board), st.sessions;
    if i < |h| && h[i].event.body.HandoffBody? {
      var from := h[i].event.body.from;
      assert ResumeThen(h, t, i);
      SilenceKeepsLast(h, i, from);
      assert LastBy(h, from) == Get(st.board.heads, from);
      if !SilentFrom(h, i, from) {
        var j :| i <= j < |h| && LastBy(h, from) == Some(h[j].id);
        LastIsThere(h[..i], from);
        var k :| 0 <= k < i && h[k].id == h[i].event.body.resume;
        if h[j].id == h[k].id {
          IdsApart(st.board, j, k);
        }
      }
    }
  }

  /** No key is both a session's and the server's or a device's: whatever was not signed
      by a session was authored by a key that is no session. */
  ghost predicate KeysApart(h: seq<Entry>, t: SessionTable) {
    forall i {:trigger h[i]} :: 0 <= i < |h| && h[i].member.None? ==> h[i].event.author !in t.sessions
  }

  /** Then nobody writes as an ended session again. */
  lemma ApartIsSilent(st: FlockState, h: seq<Entry>, i: nat)
    requires LinesOk(st, h) && ResumesKept(h, st.sessions) && KeysApart(h, st.sessions)
    requires i < |h| && h[i].event.body.HandoffBody?
    ensures SilentFrom(h, i, h[i].event.body.from)
  {
    hide Line, LastBy, PlacedBefore;
    var t, from := st.sessions, h[i].event.body.from;
    assert ResumeThen(h, t, i) && HandoffOk(h, t, i);
    forall j | i <= j < |h|
      ensures h[j].event.author != from
    {
      if j > i && h[j].member.Some? {
        HandedOnIsDone(st, h, i, j);
      }
    }
  }

  /** Nothing a session signs comes after the hand-off that ended it. */
  lemma HandedOnIsDone(st: FlockState, h: seq<Entry>, i: nat, j: nat)
    requires LinesOk(st, h) && i < j < |h| && h[i].event.body.HandoffBody? && h[j].member.Some?
    ensures h[j].event.author != h[i].event.body.from
  {
    hide Line, LastBy;
    var t, from := st.sessions, h[i].event.body.from;
    assert HandoffOk(h, t, i) && WorkOk(h, t, j);
    var m := t.sessions[from].member;
    if h[j].member.value == m {
      assert LineOk(h, t, m);
      LineGrows(h, i + 1, j, m);
      LineGrows(h, j, |h|, m);
      assert h[..|h|] == h;
      var l, x, y := Line(h, m), |Line(h[..i], m)| - 1, |Line(h[..j], m)| - 1;
      assert x < y && l[x] == from && l[y] == h[j].event.author;
    }
  }

  /**
   A member's history is one unbranched line. Its sessions hold the role in turn, each
   once; every event any of them signed was signed by the holder of that moment and has as
   `prev` its author's previous event or, when it is the author's first, the hand-off that
   made it holder; every hand-off leads from one of the line to the next, ends the one and
   activates the other, and resumed from what was then the last word of the session it
   ended; and, if no key doubles as a session's and the server's or a device's, that is its
   last word still.
   */
  lemma OneLineOfWork(g: Genesis, log: seq<Sealed>)
    requires GenesisOk(g) && Played(g, log).Ok?
    ensures
      var st := Played(g, log).value;
      && Consistent(st.board)
      && var h := Hist(st.board);
      && (forall m :: LineOk(h, st.sessions, m))
      && (forall i :: WorkOk(h, st.sessions, i))
      && (forall i :: HandoffOk(h, st.sessions, i))
      && (forall i :: ResumeThen(h, st.sessions, i))
      && (KeysApart(h, st.sessions) ==> forall i :: ResumeOk(st.board, h, st.sessions, i))
      && (forall m, i, j, k :: NotInterleaved(h, m, i, j, k))
  {
    hide Played, RosterWellFormed, RootsWellFormed, RowsOk, InvitesSpentOnce, ApprovalsSpentOnce, CertsOk, VerifyAt,
         LineOk, WorkOk, HandoffOk, ResumeThen, KeysApart, NotInterleaved, HeadsLatest, FirstCloserWins, TargetsFit, OneRosterLine, Locked;
    EveryLogKeepsLaws(g, log);
    var st := Played(g, log).value;
    var h := Hist(st.board);
    forall m, i, j, k
      ensures NotInterleaved(h, m, i, j, k)
    {
      SessionsNeverInterleave(st, h, m, i, j, k);
    }
    if KeysApart(h, st.sessions) {
      forall i
        ensures ResumeOk(st.board, h, st.sessions, i)
      {
        if 0 <= i < |h| && h[i].event.body.HandoffBody? {
          ApartIsSilent(st, h, i);
          ResumeHoldsExactly(g, log, i);
        }
      }
    }
  }
}

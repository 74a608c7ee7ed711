/** Every law of the flock, over every log that replays. */
module FlockLaws {
  import opened Results
  import opened Schema
  import opened BoardModel
  import opened Admission
  import opened BoardFold
  import opened BoardLaws
  import opened SessionModel
  import opened StateModel
  import opened Steps
  import opened History
  import opened SessionLaws
  import opened Ratchet
  import opened WorkLines

  /** What loading a genesis checks: a user's certificate that holds at epoch 0, and a
      well-formed roster. */
  predicate GenesisOk(g: Genesis) {
    g.serverCert.issuer.User? && VerifyAt(g.serverCert, 0) && RosterWellFormed(g.roster)
  }

  // ------------------------------------------------------------------ what a hand-off resumes

  ghost predicate PlacedBefore(h: seq<Entry>, i: int, id: Id) {
    exists k :: 0 <= k < i <= |h| && h[k].id == id
  }

  /** A hand-off is the server's, and its `resume` was, when it was admitted, the old session's
      latest event or, if it had written none, its start. */
  ghost predicate ResumeThen(h: seq<Entry>, t: SessionTable, i: int) {
    0 <= i < |h| && h[i].event.body.HandoffBody? ==>
      var from := h[i].event.body.from;
      && h[i].member.None?
      && from in t.sessions && PlacedBefore(h, i, t.sessions[from].start)
      && h[i].event.body.resume == if LastBy(h[..i], from).Some? then LastBy(h[..i], from).value else t.sessions[from].start
  }

  ghost predicate ResumesKept(h: seq<Entry>, t: SessionTable) {
    forall i {:trigger ResumeThen(h, t, i)} :: ResumeThen(h, t, i)
  }

  /** A session's start is in the history there was when anything names the session. */
  lemma StartPlaced(st: FlockState, h: seq<Entry>, s: string)
    requires RowsOk(st) && Consistent(st.board) && h == Hist(st.board) && s in st.sessions.sessions
    ensures PlacedBefore(h, |h|, st.sessions.sessions[s].start)
  {
    hide RoleOk, HolderOk, InviteOk;
    assert StartOk(st, s);
    assert Filed(st.board, st.sessions.sessions[s].start);
    var k := st.board.entries[st.sessions.sessions[s].start].index - 1;
    assert h[k].id == st.sessions.sessions[s].start;
  }

  lemma HandoffParties(t: SessionTable, c: Change, epoch: nat, server: Key)
    requires Legal(t, c, epoch, server) && c.HandedOff?
    ensures c.from in t.sessions && c.to in t.sessions
  {
  }

  lemma ResumeStays(h: seq<Entry>, e: Entry, t: SessionTable, epoch: nat, server: Key, i: int)
    requires Legal(t, ChangeOf(e.id, e.event), epoch, server) && i < |h| && ResumeThen(h, t, i)
    requires forall m {:trigger HolderOk(t, m)} :: HolderOk(t, m)
    requires forall s {:trigger RoleOk(t, s)} :: RoleOk(t, s)
    ensures ResumeThen(h + [e], Changed(t, ChangeOf(e.id, e.event), epoch, server), i)
  {
    hide Changed, Legal, ChangeOf, HolderOk, RoleOk, LastBy;
    if 0 <= i && h[i].event.body.HandoffBody? {
      var h', from := h + [e], h[i].event.body.from;
      assert h'[i] == h[i] && h'[..i] == h[..i];
      assert RoleOk(t, from);
      RowStep(t, ChangeOf(e.id, e.event), epoch, server, from);
      var k :| 0 <= k < i && h[k].id == t.sessions[from].start;
      assert h'[k] == h[k];
    }
  }

  lemma NewResume(st: FlockState, a: Intake, st': FlockState, h: seq<Entry>)
    requires RowsOk(st) && Consistent(st.board) && h == Hist(st.board) && LinesOk(st, h) && Moves(st, a, st')
    ensures ResumeThen(h + [EntryOf(st, a)], st'.sessions, |h|)
  {
    hide VerifyAt, ChainHead, Changed, Legal, Line, HolderOk, StartOk, InviteOk, EntryOf, LineOk, WorkOk, RoleOk, HandoffOk,
         Consistent, Grown;
    EntryEvent(st, a);
    var h', c := h + [EntryOf(st, a)], ChangeOf(EventId(a.node), a.Ev());
    assert h'[|h|] == EntryOf(st, a) && h'[..|h|] == h;
    if a.Ev().body.HandoffBody? {
      HandoffParties(st.sessions, c, a.Epoch(), st.chain.serverPub);
      assert RoleOk(st.sessions, c.from);
      RowStep(st.sessions, c, a.Epoch(), st.chain.serverPub, c.from);
      StartPlaced(st, h, c.from);
      var k :| 0 <= k < |h| && h[k].id == st.sessions.sessions[c.from].start;
      assert h'[k] == h[k];
      assert LastBy(h, c.from) == Get(st.board.heads, c.from);
    }
  }

  lemma ResumesStep(st: FlockState, a: Intake, st': FlockState, h: seq<Entry>)
    requires RowsOk(st) && Consistent(st.board) && h == Hist(st.board) && LinesOk(st, h) && Moves(st, a, st')
    requires ResumesKept(h, st.sessions)
    ensures ResumesKept(h + [EntryOf(st, a)], st'.sessions)
  {
    hide VerifyAt, KindOf, LastWord, ChainHead, Changed, Legal, ChangeOf, LinesOk, ResumeThen, EntryOf, Grown, Consistent,
         RoleOk, HolderOk, StartOk, InviteOk;
    EntryEvent(st, a);
    forall i
      ensures ResumeThen(h + [EntryOf(st, a)], st'.sessions, i)
    {
      if i < |h| {
        assert ResumeThen(h, st.sessions, i);
        ResumeStays(h, EntryOf(st, a), st.sessions, a.Epoch(), st.chain.serverPub, i);
      } else if i == |h| {
        NewResume(st, a, st', h);
      } else {
        NothingResumed(h + [EntryOf(st, a)], st'.sessions, i);
      }
    }
  }

  lemma NothingResumed(h: seq<Entry>, t: SessionTable, i: int)
    requires i >= |h|
    ensures ResumeThen(h, t, i)
  {
  }

  // ------------------------------------------------------------------ all of it, at every step

  ghost predicate Inv(st: FlockState, g: Genesis) {
    && BoardInv(st.board, g)
    && ChainOk(st)
    && st.chain.serverCert == g.serverCert
    && VerifyAt(st.chain.serverCert, st.chain.epoch)
    && RowsOk(st)
    && InvitesSpentOnce(st)
    && ApprovalsSpentOnce(Hist(st.board), st.sessions)
    && CertsOk(Hist(st.board), st.sessions, st.chain.epoch)
    && LinesOk(st, Hist(st.board))
    && ResumesKept(Hist(st.board), st.sessions)
  }

  lemma BoardKept(st: FlockState, g: Genesis, a: Intake)
    requires BoardInv(st.board, g) && Passes(st, a)
    ensures BoardInv(After(st, a).board, g)
  {
    hide Resolve, Check, FirstLink, Admitted, BoardInv, Applied;
    StepKeepsBoard(st.board, g, LogEntry(a.node, a.signer));
  }

  lemma InvMoves(st: FlockState, g: Genesis, a: Intake, st': FlockState)
    requires Inv(st, g) && Moves(st, a, st') && BoardInv(st'.board, g) && VerifyAt(st.chain.serverCert, a.Epoch())
    ensures Inv(st', g)
    ensures Hist(st'.board) == Hist(st.board) + [EntryOf(st, a)]
  {
    hide BoardInv, RowsOk, InvitesSpentOnce, ApprovalsSpentOnce, CertsOk, LinesOk, ResumesKept, VerifyAt, EntryOf, Grown,
         KindOf, ChainHead, Changed, Legal, ChangeOf, Consistent;
    var h, e := Hist(st.board), EntryOf(st, a);
    EntryEvent(st, a);
    ChainStep(st, a, st');
    RowsStep(st, a, st');
    InvitesStep(st, a, st');
    ApprovalsStep(h, e, st.sessions, a.Epoch(), st.chain.serverPub);
    CertsStep(h, e, st.sessions, st.chain.epoch, a.Epoch(), st.chain.serverPub);
    LinesStep(st, a, st', h);
    ResumesStep(st, a, st', h);
  }

  lemma InvStep(st: FlockState, g: Genesis, a: Intake)
    requires Inv(st, g) && Passes(st, a) && VerifyAt(st.chain.serverCert, a.Epoch())
    ensures Inv(After(st, a), g)
    ensures Hist(After(st, a).board) == Hist(st.board) + [EntryOf(st, a)]
    ensures Moves(st, a, After(st, a))
  {
    hide Passes, Moves, Taken, Inv, BoardInv, VerifyAt, EntryOf;
    MovesOf(st, a);
    assert BoardInv(st.board, g) by { InvHasBoard(st, g); }
    BoardKept(st, g, a);
    InvMoves(st, g, a, After(st, a));
  }

  lemma InvHasBoard(st: FlockState, g: Genesis)
    requires Inv(st, g)
    ensures BoardInv(st.board, g)
  {
  }

  lemma InvAtStart(g: Genesis)
    requires GenesisOk(g)
    ensures Start(g).Ok? && Inv(Start(g).value, g)
  {
    var st := Start(g).value;
    EveryRunKeepsBoard(g, []);
    assert Hist(st.board) == [];
    hide VerifyAt, RosterWellFormed, RootsWellFormed;
  }

  // ------------------------------------------------------------------ over whole logs

  /** The log as one list of entries, replayed one by one. */
  function Played(g: Genesis, log: seq<Sealed>): Result<FlockState, StateError> {
    if |log| == 0 then Start(g)
    else
      var st :- Played(g, log[..|log| - 1]);
      Replayed(st, log[|log| - 1])
  }

  function Flat(frames: seq<Frame>): seq<Sealed> {
    if |frames| == 0 then [] else Flat(frames[..|frames| - 1]) + frames[|frames| - 1]
  }

  lemma InvReplay(st: FlockState, g: Genesis, s: Sealed)
    requires Inv(st, g) && Replayed(st, s).Ok?
    ensures Inv(Replayed(st, s).value, g)
    ensures CertsNamed(st.sessions)
    ensures Moves(st, IntakeOf(st, s), Replayed(st, s).value)
    ensures Hist(Replayed(st, s).value.board) == Hist(st.board) + [EntryOf(st, IntakeOf(st, s))]
  {
    hide Passes, Moves, Taken, Replayed, BoardInv, VerifyAt, EntryOf, RowsOk, InvitesSpentOnce, ApprovalsSpentOnce,
         LinesOk, ResumesKept;
    ReplayPasses(st, s);
    assert IntakeOf(st, s).Epoch() == s.record.payload.epoch;
    InvStep(st, g, IntakeOf(st, s));
  }

  /** Every law holds in every state any log leads to. */
  lemma {:induction false} EveryLogKeepsLaws(g: Genesis, log: seq<Sealed>)
    requires GenesisOk(g) && Played(g, log).Ok?
    ensures Inv(Played(g, log).value, g)
    ensures |Hist(Played(g, log).value.board)| == |log|
    ensures forall i :: 0 <= i < |log| ==>
              && Hist(Played(g, log).value.board)[i].event == log[i].event.payload
              && Hist(Played(g, log).value.board)[i].id == EventId(log[i].event)
  {
    hide Inv, Replayed, VerifyAt, RosterWellFormed, Moves, EntryOf;
    if |log| == 0 {
      InvAtStart(g);
      NoHistory(g);
    } else {
      var init := log[..|log| - 1];
      EveryLogKeepsLaws(g, init);
      var st := Played(g, init).value;
      InvReplay(st, g, log[|log| - 1]);
      EntryEvent(st, IntakeOf(st, log[|log| - 1]));
    }
  }

  lemma NoHistory(g: Genesis)
    requires g.serverCert.issuer.User?
    ensures Consistent(Start(g).value.board) && Hist(Start(g).value.board) == []
  {
  }

  lemma {:induction false} PrefixPlays(g: Genesis, log: seq<Sealed>, n: nat)
    requires n <= |log| && Played(g, log).Ok?
    ensures Played(g, log[..n]).Ok?
    decreases |log| - n
  {
    hide Replayed;
    if n == |log| {
      assert log[..n] == log;
    } else {
      PrefixPlays(g, log, n + 1);
      assert log[..n + 1][..n] == log[..n];
    }
  }
}

/** Board, chain and session table together, on the live path and on replay. */
module StateModel {
  import opened Results
  import opened Schema
  import opened BoardModel
  import opened Admission
  import opened BoardFold
  import opened ChainModel
  import opened SessionModel

  datatype FlockState = FlockState(board: BoardState, chain: ChainState, sessions: SessionTable)

  datatype StateError =
    | SignerRejected(fault: Fault)
    | CertNotHeld
    | BadRecord(why: RecordFault)
    | AlreadyAdmitted
    | Refused(refusal: Refusal)
    | SessionRule(rule: Fault)
    | DropWithoutBump
    | EmptyFrame
    | ShrinkWithoutBump
    | ServerCertNotUsers

  // ------------------------------------------------------------------ checks shared by both paths

  /** Resolves the signer, asks the board, then the session table; live and replay both use it. */
  function Vet(st: FlockState, node: EventNode, sig: Assertion, epoch: nat): Result<(Signer, Option<ConflictKind>), StateError> {
    match Resolve(st.sessions, sig, EventId(node), st.chain.serverPub, st.chain.user, epoch)
    case Err(f) => Err(SignerRejected(f))
    case Ok(signer) =>
      var conflict :- match AdmitVerdict(st.board, node, signer)
                      case Admit => Ok(None)
                      case Conflict(c) => Ok(Some(c))
                      case Duplicate(_) => Err(AlreadyAdmitted)
                      case Refuse(r) => Err(Refused(r));
      match Check(st.sessions, st.board, node.payload, epoch, st.chain)
      case Err(f) => Err(SessionRule(f))
      case Ok(_) =>
        match FirstLink(st.sessions, st.board, node.payload)
        case Err(f) => Err(SessionRule(f))
        case Ok(_) => Ok((signer, conflict))
  }

  /** The genesis or logged certificate with this id. */
  function CitedCert(st: FlockState, cid: Id): Result<Cert, StateError> {
    if cid == CertId(st.chain.serverCert) then Ok(st.chain.serverCert)
    else if cid in st.sessions.chains then Ok(st.sessions.chains[cid])
    else Err(CertNotHeld)
  }

  /** Take a vetted admission in. */
  function Taken(st: FlockState, node: EventNode, signer: Signer, record: RecordNode): FlockState {
    FlockState(
      Applied(st.board, LogEntry(node, signer)).0,
      Advanced(st.chain, RecordId(record), record.payload),
      Observed(st.sessions, EventId(node), node.payload, record.payload.epoch))
  }

  // ------------------------------------------------------------------ the live path

  datatype Prepared = Prepared(sealed: Sealed, signer: Signer, conflict: Option<ConflictKind>)

  /** The entry the server would seal for this event, if it passes. */
  function Prepare(st: FlockState, key: AgentKey, node: EventNode, sig: Assertion): Result<Prepared, StateError> {
    var epoch := EpochFor(st.chain, node.payload.kind);
    var (signer, conflict) :- Vet(st, node, sig, epoch);
    var _ :- CitedCert(st, CertId(sig.author));
    Ok(Prepared(Seal(key, st.chain, epoch, node, sig), signer, conflict))
  }

  function Committed(st: FlockState, p: Prepared): FlockState {
    Taken(st, p.sealed.event, p.signer, p.sealed.record)
  }

  /** An event in the server's name, after its own latest, dated with the index it will get. */
  function ServerEvent(st: FlockState, key: AgentKey, kind: Kind, refs: map<RefRole, Id>, body: Body): (EventNode, Assertion) {
    var author := key.cert.key;
    var node := NodeOf(Event(st.board.flock, kind, author, Get(st.board.heads, author), refs, [], st.chain.nextIndex, body));
    (node, key.Assert(EventId(node)))
  }

  // ------------------------------------------------------------------ the replay path

  /** The state after an entry of the log, if its record and then its event hold on this one. */
  function Replayed(st: FlockState, s: Sealed): Result<FlockState, StateError> {
    match VerifyRecord(st.chain, s)
    case Err(why) => Err(BadRecord(why))
    case Ok(_) =>
      var cert :- CitedCert(st, s.record.payload.cert);
      var (signer, _) :- Vet(st, s.event, Assertion(cert, s.eventSig), s.record.payload.epoch);
      Ok(Taken(st, s.event, signer, s.record))
  }

  function KindAt(f: Frame, i: nat): Option<Kind> {
    if i < |f| then Some(f[i].event.payload.kind) else None
  }

  /** A session-end or hand-off is followed at once by its epoch bump. */
  predicate FrameShape(f: Frame) {
    forall i :: 0 <= i < |f| && (f[i].event.payload.kind.SessionEnd? || f[i].event.payload.kind.Handoff?) ==>
      KindAt(f, i + 1) == Some(Kind.Epoch)
  }

  predicate DropsMember(before: seq<Member>, after: seq<Member>) {
    exists i :: 0 <= i < |before| && !OnRoster(after, before[i].name)
  }

  /** Replay a frame from its `i`th entry on. */
  function ReplayedFrom(st: FlockState, f: Frame, i: nat): Result<FlockState, StateError>
    requires i <= |f|
    decreases |f| - i
  {
    if i == |f| then Ok(st)
    else
      var st' :- Replayed(st, f[i]);
      if f[i].event.payload.kind.Roster? && DropsMember(st.board.members, st'.board.members)
         && KindAt(f, i + 1) != Some(Kind.Epoch)
      then Err(DropWithoutBump)
      else ReplayedFrom(st', f, i + 1)
  }

  function ReplayedFrame(st: FlockState, f: Frame): Result<FlockState, StateError> {
    ReplayedFrom(st, f, 0)
  }

  /** One retained frame: not empty, well shaped, and every entry verifies. */
  function FrameTaken(st: FlockState, f: Frame): Result<FlockState, StateError> {
    if |f| == 0 then Err(EmptyFrame)
    else if !FrameShape(f) then Err(ShrinkWithoutBump)
    else ReplayedFrame(st, f)
  }

  function Start(g: Genesis): Result<FlockState, StateError> {
    if g.serverCert.issuer.User?
    then Ok(FlockState(Genesised(g), ChainStart(g, g.serverCert.issuer.user), EMPTY))
    else Err(ServerCertNotUsers)
  }

  /** Replay the retained frames from genesis. */
  function Rebuilt(g: Genesis, frames: seq<Frame>): Result<FlockState, StateError> {
    if |frames| == 0 then Start(g)
    else
      var st :- Rebuilt(g, frames[..|frames| - 1]);
      FrameTaken(st, frames[|frames| - 1])
  }

  // ------------------------------------------------------------------ who may watch

  /** The sessions not over, of members now listed. */
  function Eligible(st: FlockState): set<string> {
    set s | s in st.sessions.sessions && Live(st.sessions, s) && OnRoster(st.board.members, st.sessions.sessions[s].member)
  }

  // ------------------------------------------------------------------ the state as the server holds it

  class State {
    const board: Board
    const chain: Chain
    const sessions: Sessions

    ghost const Repr: set<object>

    ghost predicate Valid() {
      Repr == {board, chain, sessions}
    }

    ghost function View(): FlockState
      reads board, chain, sessions
    {
      FlockState(board.View(), chain.View(), sessions.View())
    }

    function Snapshot(): (v: FlockState)
      reads board, chain, sessions
      ensures v == View()
    {
      FlockState(board.Snapshot(), chain.View(), sessions.View())
    }

    constructor (v: FlockState)
      ensures Valid() && fresh(Repr) && View() == v
    {
      var b := new Board.Clone(v.board);
      var c := new Chain(v.chain);
      var s := new Sessions(v.sessions);
      board, chain, sessions, Repr := b, c, s, {b, c, s};
    }

    /** Session table first, then the board (which decides again), then the chain. */
    method Apply(node: EventNode, signer: Signer, record: RecordNode)
      requires Valid()
      modifies Repr
      ensures View() == Taken(old(View()), node, signer, record)
    {
      sessions.Observe(EventId(node), node.payload, record.payload.epoch);
      var _ := board.Apply(LogEntry(node, signer));
      chain.Advance(RecordId(record), record.payload);
    }

    method Commit(p: Prepared)
      requires Valid()
      modifies Repr
      ensures View() == Committed(old(View()), p)
    {
      Apply(p.sealed.event, p.signer, p.sealed.record);
    }

    method Replay(s: Sealed) returns (r: Result<(), StateError>)
      requires Valid()
      modifies Repr
      ensures r.Ok? ==> Replayed(old(View()), s) == Ok(View())
      ensures r.Err? ==> Replayed(old(View()), s) == Err(r.error) && View() == old(View())
    {
      var v := Snapshot();
      var ids := VerifyRecord(v.chain, s);
      if ids.Err? {
        return Err(BadRecord(ids.error));
      }
      var cert := CitedCert(v, s.record.payload.cert);
      if cert.Err? {
        return Err(cert.error);
      }
      var vetted := Vet(v, s.event, Assertion(cert.value, s.eventSig), s.record.payload.epoch);
      if vetted.Err? {
        return Err(vetted.error);
      }
      Apply(s.event, vetted.value.0, s.record);
      return Ok(());
    }

    method ReplayFrame(f: Frame) returns (r: Result<(), StateError>)
      requires Valid()
      modifies Repr
      ensures r.Ok? ==> ReplayedFrame(old(View()), f) == Ok(View())
      ensures r.Err? ==> ReplayedFrame(old(View()), f) == Err(r.error)
    {
      hide Replayed;
      var i := 0;
      while i < |f|
        invariant 0 <= i <= |f|
        invariant ReplayedFrom(old(View()), f, 0) == ReplayedFrom(View(), f, i)
      {
        var before := board.members;
        var step := Replay(f[i]);
        if step.Err? {
          return Err(step.error);
        }
        if f[i].event.payload.kind.Roster? && DropsMember(before, board.members) && KindAt(f, i + 1) != Some(Kind.Epoch) {
          return Err(DropWithoutBump);
        }
        i := i + 1;
      }
      return Ok(());
    }

    method TakeFrame(f: Frame) returns (r: Result<(), StateError>)
      requires Valid()
      modifies Repr
      ensures r.Ok? ==> FrameTaken(old(View()), f) == Ok(View())
      ensures r.Err? ==> FrameTaken(old(View()), f) == Err(r.error)
    {
      hide ReplayedFrame;
      if |f| == 0 {
        return Err(EmptyFrame);
      }
      var shape := CheckFrameShape(f);
      if !shape {
        return Err(ShrinkWithoutBump);
      }
      r := ReplayFrame(f);
    }
  }

  method CheckFrameShape(f: Frame) returns (ok: bool)
    ensures ok <==> FrameShape(f)
  {
    for i := 0 to |f|
      invariant forall j :: 0 <= j < i && (f[j].event.payload.kind.SessionEnd? || f[j].event.payload.kind.Handoff?) ==>
                  KindAt(f, j + 1) == Some(Kind.Epoch)
    {
      var k := f[i].event.payload.kind;
      if (k.SessionEnd? || k.Handoff?) && KindAt(f, i + 1) != Some(Kind.Epoch) {
        return false;
      }
    }
    return true;
  }

  /** A bad frame fails the rebuild of every longer log. */
  lemma {:induction false} RebuildFailureSticks(g: Genesis, frames: seq<Frame>, n: nat)
    requires n <= |frames| && Rebuilt(g, frames[..n]).Err?
    ensures Rebuilt(g, frames) == Rebuilt(g, frames[..n])
    decreases |frames| - n
  {
    hide FrameTaken;
    if n < |frames| {
      assert frames[..n + 1][..n] == frames[..n];
      RebuildFailureSticks(g, frames, n + 1);
    } else {
      assert frames[..n] == frames;
    }
  }
}

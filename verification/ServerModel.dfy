/** Refusal records: how each is signed onto the one before, and when a list of them holds. */
module RefusalChain {
  import opened Results
  import opened Schema

  datatype RefusalFault = NotTheServer | BadRefusalSignature | NotTheNextRefusal | CountOutOfOrder

  function SignRefusal(key: AgentKey, prev: Id, rec: RefusalRecord): RefusalEntry {
    var node := RefusalNode(rec, {prev});
    RefusalEntry(node, key.Assert(RefusalId(node)))
  }

  /** A refusal holds after `prev` if it names that as its parent, the server's own key signed
      it, and its admission count is between the one before it and the whole log's. */
  function VerifyRefusal(e: RefusalEntry, prev: Id, server: Key, epoch: nat, last: nat, total: nat): Result<Id, RefusalFault> {
    var id := RefusalId(e.record);
    if e.sig.author.key != server then Err(NotTheServer)
    else if !Vouches(e.sig, id, server, epoch) then Err(BadRefusalSignature)
    else if e.record.parents != {prev} then Err(NotTheNextRefusal)
    else if !(last <= e.record.payload.admitted <= total) then Err(CountOutOfOrder)
    else Ok(id)
  }

  /** Where the chain stands: the id the next entry must extend, and the last count. */
  datatype Tip = Tip(prev: Id, last: nat)

  function VerifyChain(es: seq<RefusalEntry>, flock: Id, server: Key, epoch: nat, total: nat): Result<Tip, RefusalFault> {
    if |es| == 0 then Ok(Tip(flock, 0))
    else
      var tip :- VerifyChain(es[..|es| - 1], flock, server, epoch, total);
      var e := es[|es| - 1];
      var id :- VerifyRefusal(e, tip.prev, server, epoch, tip.last, total);
      Ok(Tip(id, e.record.payload.admitted))
  }

  method VerifyEntries(es: seq<RefusalEntry>, flock: Id, server: Key, epoch: nat, total: nat) returns (r: Result<Tip, RefusalFault>)
    ensures r == VerifyChain(es, flock, server, epoch, total)
  {
    var tip := Tip(flock, 0);
    for i := 0 to |es|
      invariant VerifyChain(es[..i], flock, server, epoch, total) == Ok(tip)
    {
      assert es[..i + 1][..i] == es[..i];
      var id := VerifyRefusal(es[i], tip.prev, server, epoch, tip.last, total);
      if id.Err? {
        ChainFailureSticks(es, flock, server, epoch, total, i + 1);
        return Err(id.error);
      }
      tip := Tip(id.value, es[i].record.payload.admitted);
    }
    assert es[..|es|] == es;
    return Ok(tip);
  }

  lemma {:induction false} ChainFailureSticks(es: seq<RefusalEntry>, flock: Id, server: Key, epoch: nat, total: nat, n: nat)
    requires n <= |es| && VerifyChain(es[..n], flock, server, epoch, total).Err?
    ensures VerifyChain(es, flock, server, epoch, total) == VerifyChain(es[..n], flock, server, epoch, total)
    decreases |es| - n
  {
    hide VerifyRefusal;
    if n < |es| {
      assert es[..n + 1][..n] == es[..n];
      ChainFailureSticks(es, flock, server, epoch, total, n + 1);
    } else {
      assert es[..n] == es;
    }
  }

  /** A chain that verified keeps verifying as the log grows and the epoch moves, as long
      as the certificate it was signed under still holds. */
  lemma {:induction false} ChainKeepsVerifying(
    es: seq<RefusalEntry>, flock: Id, server: Key, epoch: nat, epoch': nat, total: nat, total': nat, cert: Cert)
    requires VerifyChain(es, flock, server, epoch, total).Ok? && total <= total'
    requires forall i :: 0 <= i < |es| ==> es[i].sig.author == cert
    requires VerifyAt(cert, epoch')
    ensures VerifyChain(es, flock, server, epoch', total') == VerifyChain(es, flock, server, epoch, total)
  {
    hide VerifyAt, RootAgent;
    if |es| > 0 {
      ChainKeepsVerifying(es[..|es| - 1], flock, server, epoch, epoch', total, total', cert);
      assert es[|es| - 1].sig.author == cert;
    }
  }

  lemma {:induction false} ChainCounts(es: seq<RefusalEntry>, flock: Id, server: Key, epoch: nat, total: nat)
    requires VerifyChain(es, flock, server, epoch, total).Ok?
    ensures VerifyChain(es, flock, server, epoch, total).value.last <= total
  {
    hide Vouches;
    if |es| > 0 {
      ChainCounts(es[..|es| - 1], flock, server, epoch, total);
    }
  }
}

/** One process, two logs, one admission transaction at a time, as functions on values. */
module ServerModel {
  import opened Results
  import opened Schema
  import opened BoardModel
  import opened SessionModel
  import opened StateModel
  import opened RefusalChain
  import opened Codec
  import opened LogModel

  /** What a server is opened with. `fits` says whether a frame can be delivered in one
      message to a watcher. */
  datatype Config = Config(
    genesis: Genesis, key: AgentKey, frames: Codec<Frame>, entries: Codec<RefusalEntry>, fits: Frame -> bool)

  /** A frame in the journal, with the sessions that could watch once it was in. */
  datatype Published = Published(frame: Frame, eligible: set<string>)

  /** The frames of a journal. */
  function FramesOf(journal: seq<Published>): seq<Frame> {
    seq(|journal|, i requires 0 <= i < |journal| => journal[i].frame)
  }

  datatype ServerState = ServerState(
    st: FlockState, log: Disk, refusalLog: Disk, refusals: seq<RefusalEntry>, refusalPrev: Id,
    poisoned: bool, journal: seq<Published>)

  datatype ServerError =
    | PoisonedServer
    | ShrinkAlone
    | CannotDeliver
    | Unsaved(why: LogError)
    | NoSuchSession
    | Rejected(why_: StateError)

  // ------------------------------------------------------------------ opening

  datatype OpenError =
    | DamagedLog(offset: nat)
    | DamagedRefusals(offset: nat)
    | BadHistory(e: StateError)
    | BadRefusals(f: RefusalFault)
    | RecoveryFailed

  /** The retained frames as they are published: each with who was eligible after it. */
  function Republished(g: Genesis, frames: seq<Frame>): seq<Published>
    requires Rebuilt(g, frames).Ok?
  {
    if |frames| == 0 then []
    else
      Republished(g, frames[..|frames| - 1]) + [Published(frames[|frames| - 1], Eligible(Rebuilt(g, frames).value))]
  }

  /** Everything retained, verified: the state the frames rebuild to, and where the refusal chain
      stands. */
  function Retained(cfg: Config, frames: seq<Frame>, entries: seq<RefusalEntry>): Result<(FlockState, Id), OpenError> {
    match Rebuilt(cfg.genesis, frames)
    case Err(e) => Err(BadHistory(e))
    case Ok(st) =>
      match VerifyChain(entries, st.board.flock, st.chain.serverPub, st.chain.epoch, AdmittedCount(st))
      case Err(f) => Err(BadRefusals(f))
      case Ok(tip) => Ok((st, tip.prev))
  }

  /** The state a server comes up in on these two files, recovered; or what is wrong with them. */
  function Opened(cfg: Config, log: Disk, refusalLog: Disk): Result<ServerState, OpenError> {
    match ParsedFrom(cfg.frames, log.visible, 0, [])
    case Corrupt(offset) => Err(DamagedLog(offset))
    case Parsed(frames, _, cut) =>
      match ParsedFrom(cfg.entries, refusalLog.visible, 0, [])
      case Corrupt(offset) => Err(DamagedRefusals(offset))
      case Parsed(entries, _, cut') =>
        match Retained(cfg, Values(frames), Values(entries))
        case Err(e) => Err(e)
        case Ok((st, prev)) =>
          Ok(ServerState(st, CutAndSynced(log, cut), CutAndSynced(refusalLog, cut'), Values(entries), prev, false,
                         Republished(cfg.genesis, Values(frames))))
  }

  function CutAndSynced(d: Disk, cut: Option<nat>): Disk {
    if cut.Some? && cut.value > |d.visible| then d else Recovered(d, cut)
  }

  /** How far the recovery of both files gets before it fails: nowhere, the log cut, the log
      synced, the refusal log cut. */
  datatype RecoveryPoint = Untouched | LogCut | LogSynced | RefusalsCut

  /** What a recovery that fails there leaves, where one that does not would leave `sv`. */
  function LeftBy(log: Disk, refusalLog: Disk, sv: ServerState, at: RecoveryPoint): (Disk, Disk) {
    match at
    case Untouched => (log, refusalLog)
    case LogCut => (CutOnly(log, sv.log), refusalLog)
    case LogSynced => (sv.log, refusalLog)
    case RefusalsCut => (sv.log, CutOnly(refusalLog, sv.refusalLog))
  }

  /** How many events are admitted. */
  function AdmittedCount(st: FlockState): nat {
    if st.chain.nextIndex == 0 then 0 else st.chain.nextIndex - 1
  }

  // ------------------------------------------------------------------ deciding what to write

  datatype Decision =
    | Known(index: nat)
    | Refuses(error: ServerError)
    | Journals(refusal: Refusal)
    | Takes(frame: Frame, next: FlockState, index: nat, conflict: Option<ConflictKind>)

  datatype Spec = Spec(kind: Kind, refs: map<RefRole, Id>, body: Body)

  function BumpSpec(st: FlockState): Spec {
    Spec(Kind.Epoch, map[], EpochBody(st.chain.epoch + 1))
  }

  /** The entries these specs seal into and the state they lead to, or the first failure. */
  function Built(cfg: Config, st: FlockState, specs: seq<Spec>): Result<(Frame, FlockState), StateError> {
    if |specs| == 0 then Ok(([], st))
    else
      var (frame, next) :- Built(cfg, st, specs[..|specs| - 1]);
      var spec := specs[|specs| - 1];
      var (node, sig) := ServerEvent(next, cfg.key, spec.kind, spec.refs, spec.body);
      var p :- Prepare(next, cfg.key, node, sig);
      Ok((frame + [p.sealed], Committed(next, p)))
  }

  /** What `admit` decides: known, refused, refused and journaled, or a frame to write. */
  function Decided(cfg: Config, st: FlockState, node: EventNode, sig: Assertion): Decision {
    if EventId(node) in st.board.entries then Known(st.board.entries[EventId(node)].index)
    else if node.payload.kind.SessionEnd? || node.payload.kind.Handoff? then Refuses(ShrinkAlone)
    else
      match Prepare(st, cfg.key, node, sig)
      case Err(Refused(r)) => Journals(r)
      case Err(e) => Refuses(Rejected(e))
      case Ok(p) => DecidedOn(cfg, st, p)
  }

  /** What becomes of an event that passed every check: a frame of it, and of the epoch bump
      too if it takes somebody off the roster; or too large to deliver. */
  function DecidedOn(cfg: Config, st: FlockState, p: Prepared): Decision {
    var next := Committed(st, p);
    var index := p.sealed.record.payload.index;
    if !cfg.fits([p.sealed]) then Journals(TooLarge)
    else if p.sealed.event.payload.kind.Roster? && DropsMember(st.board.members, next.board.members) then
      match Built(cfg, next, [BumpSpec(next)])
      case Err(e) => Refuses(Rejected(e))
      case Ok((bump, after)) =>
        if !cfg.fits([p.sealed] + bump) then Journals(TooLarge)
        else Takes([p.sealed] + bump, after, index, p.conflict)
    else Takes([p.sealed], next, index, p.conflict)
  }

  // ------------------------------------------------------------------ entry points

  /** The calls that make the server author events. Where a call mints a certificate, it is
      given here. */
  datatype Call =
    | Invite(member: string, verifier: Id)
    | Enroll(invite: Id, member: string, cert: Cert)
    | EndSession(session: string, reason: EndReason)
    | Renew(session: string, cert: Cert)
    | RegisterDevice(cert: Cert)
    | ReplaceRoster(members: seq<Member>)
    | SetRoots(roots: seq<string>)
    | HandOff(approval: ApprovalNode, sig: Assertion)

  function SpecsOf(st: FlockState, c: Call): Result<seq<Spec>, ServerError> {
    var t := st.sessions;
    match c
    case Invite(member, verifier) => Ok([Spec(Kind.Invite, map[], InviteBody(member, verifier))])
    case Enroll(invite, member, cert) =>
      Ok([Spec(Kind.SessionStart, map[InviteRef := invite], SessionStartBody(member, cert.key, cert))])
    case EndSession(session, reason) =>
      if !Live(t, session) then Err(NoSuchSession)
      else Ok([Spec(Kind.SessionEnd, map[SessionRef := t.sessions[session].start], SessionEndBody(session, reason)), BumpSpec(st)])
    case Renew(session, cert) =>
      if !Live(t, session) then Err(NoSuchSession)
      else Ok([Spec(Kind.Renewal, map[SessionRef := t.sessions[session].start], RenewalBody(session, st.chain.epoch, cert))])
    case RegisterDevice(cert) => Ok([Spec(Kind.DeviceCert, map[], DeviceCertBody(cert))])
    case ReplaceRoster(members) =>
      var roster := Spec(Kind.Roster, map[Replaces := st.board.rosterId], RosterBody(members, st.board.roots));
      Ok(if DropsMember(st.board.members, members) then [roster, BumpSpec(st)] else [roster])
    case SetRoots(roots) =>
      Ok([Spec(Kind.Roster, map[Replaces := st.board.rosterId], RosterBody(st.board.members, roots))])
    case HandOff(approval, sig) =>
      var a := approval.payload;
      if a.from !in t.sessions || a.to !in t.sessions then Err(NoSuchSession)
      else
        Ok([Spec(Kind.Handoff,
                 map[FromRef := t.sessions[a.from].start, ResumeRef := a.resume, ToRef := t.sessions[a.to].start],
                 HandoffBody(a.from, a.to, a.resume, a.context, approval, sig)), BumpSpec(st)])
  }

  /** Server-authored events as one frame, if it can be delivered. */
  function Sealing(cfg: Config, st: FlockState, specs: seq<Spec>): Result<(Frame, FlockState), ServerError> {
    match Built(cfg, st, specs)
    case Err(e) => Err(Rejected(e))
    case Ok((frame, next)) => if !cfg.fits(frame) then Err(CannotDeliver) else Ok((frame, next))
  }

  /** A whole call: the frame to write and the state after it. */
  function Transacted(cfg: Config, st: FlockState, c: Call): Result<(Frame, FlockState), ServerError> {
    var specs :- SpecsOf(st, c);
    Sealing(cfg, st, specs)
  }

  // ------------------------------------------------------------------ writing

  /** Append a frame: durable, then the state, then published; or stop for good. */
  function Saved(cfg: Config, sv: ServerState, frame: Frame, next: FlockState, plan: Option<CrashPlan>): (ServerState, Option<LogError>) {
    if !Fits(cfg.frames, frame) then (sv.(poisoned := true), Some(TooLong))
    else
      var log := Appended(sv.log, |sv.log.visible|, Encoded(cfg.frames, frame), plan);
      if plan.Some? then (sv.(log := log, poisoned := true), Some(Io))
      else (sv.(log := log, st := next, journal := sv.journal + [Published(frame, Eligible(next))]), None)
  }

  function RefusalOf(cfg: Config, sv: ServerState, node: EventNode, why: Refusal): RefusalEntry {
    SignRefusal(cfg.key, sv.refusalPrev, RefusalRecord(EventId(node), node.payload.author, why, AdmittedCount(sv.st)))
  }

  /** Append a refusal: durable, then the chain; or stop for good. */
  function Journaled(cfg: Config, sv: ServerState, e: RefusalEntry, plan: Option<CrashPlan>): (ServerState, Option<LogError>) {
    if !Fits(cfg.entries, e) then (sv.(poisoned := true), Some(TooLong))
    else
      var log := Appended(sv.refusalLog, |sv.refusalLog.visible|, Encoded(cfg.entries, e), plan);
      if plan.Some? then (sv.(refusalLog := log, poisoned := true), Some(Io))
      else (sv.(refusalLog := log, refusals := sv.refusals + [e], refusalPrev := RefusalId(e.record)), None)
  }

  datatype Receipt = Receipt(index: nat, duplicate: bool, conflict: Option<ConflictKind>)

  /** Carry a decision out. `plan` and `refusalPlan` say where the two appends die, if they do. */
  function CarriedOut(
    cfg: Config, sv: ServerState, node: EventNode, d: Decision, plan: Option<CrashPlan>, refusalPlan: Option<CrashPlan>)
    : (ServerState, Result<Receipt, ServerError>)
  {
    match d
    case Known(index) => (sv, Ok(Receipt(index, true, None)))
    case Refuses(e) => (sv, Err(e))
    case Journals(r) =>
      var (sv', failed) := Journaled(cfg, sv, RefusalOf(cfg, sv, node, r), refusalPlan);
      (sv', if failed.Some? then Err(Unsaved(failed.value)) else Err(Rejected(Refused(r))))
    case Takes(frame, next, index, conflict) =>
      var (sv', failed) := Saved(cfg, sv, frame, next, plan);
      (sv', if failed.Some? then Err(Unsaved(failed.value)) else Ok(Receipt(index, false, conflict)))
  }

  /** One call of `admit`. */
  function AdmitStep(
    cfg: Config, sv: ServerState, node: EventNode, sig: Assertion, plan: Option<CrashPlan>, refusalPlan: Option<CrashPlan>)
    : (ServerState, Result<Receipt, ServerError>)
  {
    if sv.poisoned then (sv, Err(PoisonedServer))
    else CarriedOut(cfg, sv, node, Decided(cfg, sv.st, node, sig), plan, refusalPlan)
  }

  /** The ids of a frame's events, in order. */
  function IdsOf(frame: Frame): seq<Id> {
    seq(|frame|, i requires 0 <= i < |frame| => EventId(frame[i].event))
  }

  /** One transaction of server-authored events; the ids of what it committed. */
  function TransactStep(cfg: Config, sv: ServerState, specs: seq<Spec>, plan: Option<CrashPlan>)
    : (ServerState, Result<seq<Id>, ServerError>)
  {
    if sv.poisoned then (sv, Err(PoisonedServer))
    else
      match Sealing(cfg, sv.st, specs)
      case Err(e) => (sv, Err(e))
      case Ok((frame, next)) =>
        var (sv', failed) := Saved(cfg, sv, frame, next, plan);
        (sv', if failed.Some? then Err(Unsaved(failed.value)) else Ok(IdsOf(frame)))
  }

  /** One call that makes the server author events. */
  function CallStep(cfg: Config, sv: ServerState, c: Call, plan: Option<CrashPlan>): (ServerState, Result<seq<Id>, ServerError>) {
    match SpecsOf(sv.st, c)
    case Err(e) => (sv, Err(e))
    case Ok(specs) => TransactStep(cfg, sv, specs, plan)
  }
}

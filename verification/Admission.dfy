/** The derived state as a value, and the questions admission asks of it. */
module BoardModel {
  import opened Results
  import opened Schema

  /** Flagged when admitted: the target already had a closer. */
  datatype ConflictKind = SecondCloser(first: Id)

  datatype Entry = Entry(
    id: Id, index: nat, event: Event, member: Option<string>, conflict: Option<ConflictKind>)

  datatype BoardState = BoardState(
    flock: Id,
    rosterId: Id,
    members: seq<Member>,
    roots: seq<string>,
    entries: map<Id, Entry>,
    order: seq<Id>,
    heads: map<string, Id>,
    closers: map<Id, Id>)

  function Genesised(g: Genesis): BoardState {
    BoardState(GenesisId(g), GenesisId(g), g.roster, [], map[], [], map[], map[])
  }

  function Get<K, V>(m: map<K, V>, k: K): Option<V> {
    if k in m then Some(m[k]) else None
  }

  predicate OnRoster(ms: seq<Member>, name: string) {
    exists i :: 0 <= i < |ms| && ms[i].name == name
  }

  /** The first member of that name. */
  function Find(ms: seq<Member>, name: string): (r: Option<Member>)
    ensures r.Some? <==> OnRoster(ms, name)
    ensures r.Some? ==> r.value in ms && r.value.name == name
  {
    if |ms| == 0 then None
    else if ms[0].name == name then Some(ms[0])
    else
      var r := Find(ms[1..], name);
      assert OnRoster(ms, name) <==> OnRoster(ms[1..], name) by {
        if OnRoster(ms, name) {
          var i :| 0 <= i < |ms| && ms[i].name == name;
          assert ms[1..][i - 1].name == name;
        }
        if OnRoster(ms[1..], name) {
          var i :| 0 <= i < |ms[1..]| && ms[1..][i].name == name;
          assert ms[i + 1].name == name;
        }
      }
      r
  }

  /** Some operator member lists `device`. */
  predicate ListedDevice(ms: seq<Member>, device: Key) {
    exists i :: 0 <= i < |ms| && ms[i].role == Operator && device in ms[i].devices
  }
}

/** The admission table: (board, event, signer) to admit, admit as a conflict, or refuse. */
module Admission {
  import opened Results
  import opened Schema
  import opened BoardModel

  datatype Verdict =
    | Admit
    | Conflict(kind: ConflictKind)
    | Duplicate(index: nat)
    | Refuse(refusal: Refusal)

  // ------------------------------------------------------------------ rosters and roots

  predicate DistinctNames(ms: seq<Member>) {
    forall i, j :: 0 <= i < j < |ms| ==> ms[i].name != ms[j].name
  }

  function Delegates(ms: seq<Member>): nat {
    if |ms| == 0 then 0
    else Delegates(ms[..|ms| - 1]) + if ms[|ms| - 1].delegate then 1 else 0
  }

  predicate DevicesOnOperators(ms: seq<Member>) {
    forall i :: 0 <= i < |ms| && ms[i].role != Operator ==> ms[i].devices == []
  }

  predicate RosterWellFormed(ms: seq<Member>) {
    Delegates(ms) <= 1 && DistinctNames(ms) && DevicesOnOperators(ms)
  }

  /** The name of the first member marked delegate. */
  function DelegateOf(ms: seq<Member>): Option<string> {
    if |ms| == 0 then None
    else if ms[0].delegate then Some(ms[0].name)
    else DelegateOf(ms[1..])
  }

  /** Device bindings by member name; device order is not part of the binding. */
  function Bindings(ms: seq<Member>): map<string, multiset<Key>> {
    if |ms| == 0 then map[]
    else
      var rest := Bindings(ms[..|ms| - 1]);
      var m := ms[|ms| - 1];
      if m.devices == [] then rest else rest[m.name := multiset(m.devices)]
  }

  function CheckDevices(b: BoardState, new_: seq<Member>, signer: Signer): Result<(), Refusal> {
    if !DistinctNames(new_) then Err(DuplicateMember)
    else if Delegates(new_) > 1 then Err(MultipleDelegates)
    else if signer.class_ != Server && DelegateOf(new_) != DelegateOf(b.members) then Err(DelegateLocked)
    else if !RosterWellFormed(new_) then Err(DevicesOnNonOperator)
    else if signer.class_ != Server && Bindings(new_) != Bindings(b.members) then Err(DevicesLocked)
    else Ok(())
  }

  predicate PlainChar(c: char) {
    'A' <= c <= 'Z' || 'a' <= c <= 'z' || '0' <= c <= '9' || c == '.' || c == '_' || c == '-'
  }

  predicate PlainRoot(r: string) {
    1 <= |r| <= 64 && (forall i :: 0 <= i < |r| ==> PlainChar(r[i])) && r != "." && r != ".."
  }

  predicate RootsWellFormed(roots: seq<string>) {
    && (forall i :: 0 <= i < |roots| ==> PlainRoot(roots[i]))
    && (forall i, j :: 0 <= i < j < |roots| ==> roots[i] != roots[j])
  }

  function AsSet(roots: seq<string>): set<string> {
    set r | r in roots
  }

  function CheckRoots(b: BoardState, new_: seq<string>, signer: Signer): Result<(), Refusal> {
    if !RootsWellFormed(new_) then Err(BadRoot)
    else if signer.class_ != Server && AsSet(new_) != AsSet(b.roots) then Err(RootsLocked)
    else Ok(())
  }

  // ------------------------------------------------------------------ who signs what

  predicate ServerMaySign(k: Kind) {
    k.Roster? || IsServerKind(k)
  }

  predicate IsServerKind(k: Kind) {
    k.Epoch? || k.Renewal? || k.DeviceCert? || k.SessionStart? || k.SessionEnd? || k.Handoff? || k.Invite?
  }

  predicate SessionMaySign(k: Kind, role: Role) {
    match k
    case Roster | Brief | Review => role == Shepherd
    case Status | Nudged | NudgeMisfire => role == Adapter
    case Ack | Result | Verdict | Job | JobEnd | Ask | Pane | RelayedAnswer => true
    case Answer | Epoch | Renewal | DeviceCert | SessionStart | SessionEnd | Handoff | Invite => false
  }

  /** The signing member's name for a session signer, after the class gate. */
  function SignerMember(b: BoardState, k: Kind, signer: Signer): Result<Option<string>, Refusal> {
    match signer.class_
    case Server => if ServerMaySign(k) then Ok(None) else Err(NotAllowed)
    case Device =>
      if !k.Answer? then Err(NotAllowed)
      else if ListedDevice(b.members, signer.fingerprint) then Ok(None)
      else Err(NotAListedDevice)
    case Session(member, pending) =>
      if pending then Err(PendingSession) else
      match Find(b.members, member)
      case None => Err(UnknownMember)
      case Some(m) =>
        if k.Ack? && m.role == Adapter then Err(AdapterCannotAck)
        else if SessionMaySign(k, m.role) then Ok(Some(member))
        else Err(NotAllowed)
  }

  /** Refuses a session's event unless it comes next in its author's own chain, or first with
      nothing or a hand-off before it; and an operator's that claims a predecessor. */
  function WriterChain(b: BoardState, ev: Event, signer: Signer): Result<(), Refusal> {
    match signer.class_
    case Server => Ok(())
    case Device => if ev.prev.None? then Ok(()) else Err(BadPrev)
    case Session(_, _) =>
      var head := Get(b.heads, ev.author);
      if ev.prev == head then Ok(())
      else if head.None? then
        // here `prev` is set: it may only be a hand-off
        if ev.prev.value in b.entries && b.entries[ev.prev.value].event.kind == Handoff
        then Ok(()) else Err(BadPrev)
      else if ev.prev.None? then Err(WriterFork)
      else if ev.prev.value in b.entries && b.entries[ev.prev.value].event.author == ev.author
      then Err(WriterFork) else Err(BadPrev)
  }

  // ------------------------------------------------------------------ references

  /** One reference a kind takes: its name, the kinds it may name, whether it must be there. */
  datatype RefRule = RefRule(role: RefRole, kinds: set<Kind>, required: bool)

  function RefSpec(k: Kind): seq<RefRule> {
    match k
    case Roster => [RefRule(Replaces, {Kind.Roster}, true)]
    case Ack => [RefRule(OfRef, {Kind.Brief, Kind.Review}, true)]
    case Result => [RefRule(BriefRef, {Kind.Brief}, true)]
    case Verdict => [RefRule(ReviewRef, {Kind.Review}, true)]
    case JobEnd => [RefRule(JobRef, {Kind.Job}, true)]
    case Ask => [RefRule(About, {Kind.Brief}, false)]
    case Answer | RelayedAnswer => [RefRule(AskRef, {Kind.Ask}, true)]
    case Nudged | NudgeMisfire => [RefRule(OfRef, {Kind.Brief, Kind.Review}, false)]
    case _ => []
  }

  function DeclaredLane(b: Body): Option<string> {
    match b
    case BriefBody(_, lane) => Some(lane)
    case ReviewBody(_, lane, _) => Some(lane)
    case JobBody(lane, _) => Some(lane)
    case AskBody(lane, _) => lane
    case _ => None
  }

  predicate CrossesLane(mine: Body, theirs: Body) {
    DeclaredLane(mine).Some? && DeclaredLane(theirs).Some? && DeclaredLane(mine) != DeclaredLane(theirs)
  }

  /** One rule of the spec against the event: the event it acts on, if this rule names one. */
  function CheckRef(b: BoardState, ev: Event, rule: RefRule): Result<Option<Id>, Refusal> {
    if rule.role !in ev.refs then
      if rule.required then Err(MissingRef) else Ok(None)
    else
      var cid := ev.refs[rule.role];
      if ev.kind.Roster? then
        if cid != b.rosterId then Err(StaleRoster) else Ok(None)
      else if cid !in b.entries then Err(UnknownRef)
      else if b.entries[cid].event.kind !in rule.kinds then Err(WrongRefKind)
      else if CrossesLane(ev.body, b.entries[cid].event.body) then Err(CrossLane)
      else Ok(Some(cid))
  }

  /** The rules in turn; the last one that names an event decides what is acted on. */
  function CheckRules(b: BoardState, ev: Event, spec: seq<RefRule>, actsOn: Option<Id>): Result<Option<Id>, Refusal> {
    if |spec| == 0 then Ok(actsOn)
    else
      var r :- CheckRef(b, ev, spec[0]);
      CheckRules(b, ev, spec[1..], if r.Some? then r else actsOn)
  }

  predicate InSpec(spec: seq<RefRule>, role: RefRole) {
    exists i :: 0 <= i < |spec| && spec[i].role == role
  }

  /** Checks the references against the rules for the event's kind, in the rules' order; the
      target is what the last rule with a reference points at. */
  function CheckRefs(b: BoardState, ev: Event): Result<Option<Id>, Refusal> {
    if IsServerKind(ev.kind) then
      if exists r :: r in ev.refs && ev.refs[r] !in b.entries then Err(UnknownRef) else Ok(None)
    else if exists r :: r in ev.refs && !InSpec(RefSpec(ev.kind), r) then Err(UnexpectedRef)
    else CheckRules(b, ev, RefSpec(ev.kind), None)
  }

  // ------------------------------------------------------------------ the table

  function Addressee(b: Body): Option<string> {
    match b
    case BriefBody(to, _) => Some(to)
    case ReviewBody(to, _, _) => Some(to)
    case _ => None
  }

  function Utf8Len(v: string): nat {
    if |v| == 0 then 0
    else
      var c := v[0] as int;
      (if c < 0x80 then 1 else if c < 0x800 then 2 else if c < 0x1_0000 then 3 else 4) + Utf8Len(v[1..])
  }

  predicate IsControl(c: char) {
    (c as int) < 0x20 || 0x7F <= (c as int) < 0xA0
  }

  predicate ClaimOk(v: string) {
    v != "" && Utf8Len(v) <= 128 && forall i :: 0 <= i < |v| ==> !IsControl(v[i])
  }

  function NudgeOk(b: BoardState, target: string, about: Option<Entry>, texts: seq<string>): Result<Option<Id>, Refusal> {
    if !OnRoster(b.members, target) then Err(UnknownMember)
    else if about.Some? && Addressee(about.value.event.body).None? then Err(WrongRefKind)
    else if about.Some? && Addressee(about.value.event.body) != Some(target) then Err(NotAddressee)
    else if exists i :: 0 <= i < |texts| && !ClaimOk(texts[i]) then Err(BadClaim)
    else Ok(None)
  }

  /** The checks that depend on the referenced event's own content (its addressee, its head,
      its member), and the event closed, if this kind closes one. */
  function ApplyTable(b: BoardState, ev: Event, member: Option<string>, target: Option<Id>): Result<Option<Id>, Refusal> {
    var entry := if target.Some? then Get(b.entries, target.value) else None;
    match ev.kind
    case Ack =>
      if member.None? then Err(NotAllowed)
      else if entry.None? then Err(MissingRef)
      else if Addressee(entry.value.event.body) != member then Err(NotAddressee)
      else Ok(None)
    case Result =>
      if member.None? then Err(NotAllowed)
      else if entry.None? then Err(MissingRef)
      else if Addressee(entry.value.event.body) != member then Err(NotAddressee)
      else Ok(target)
    case Verdict =>
      if !ev.body.VerdictBody? then Ok(None)
      else if member.None? then Err(NotAllowed)
      else if entry.None? then Err(MissingRef)
      else if Addressee(entry.value.event.body) != member then Err(NotAddressee)
      else if entry.value.event.body.ReviewBody? && entry.value.event.body.head == ev.body.head then Ok(target)
      else Err(HeadMismatch)
    case JobEnd =>
      if !ev.body.JobEndBody? || ev.body.code.Some? == ev.body.signal.Some? then Err(BadExit)
      else if member.None? then Err(NotAllowed)
      else if entry.None? then Err(MissingRef)
      else if entry.value.member != member then Err(NotAddressee)
      else Ok(target)
    case Pane =>
      if !ev.body.PaneBody? || (ClaimOk(ev.body.pane) && ClaimOk(ev.body.tab)) then Ok(None) else Err(BadClaim)
    case Answer => Ok(target)
    case Nudged =>
      if !ev.body.NudgedBody? then Ok(None) else NudgeOk(b, ev.body.target, entry, [])
    case NudgeMisfire =>
      if !ev.body.NudgeMisfireBody? then Ok(None)
      else NudgeOk(b, ev.body.target, entry, [ev.body.expected, ev.body.found])
    case _ => Ok(None)
  }

  /** The checks in order: duplicate, envelope, signer class, roster rules, files, writer
      chain, references, table. */
  function Decide(b: BoardState, node: EventNode, signer: Signer): Result<Verdict, Refusal> {
    var ev := node.payload;
    if EventId(node) in b.entries then Ok(Duplicate(b.entries[EventId(node)].index))
    else if ev.flock != b.flock then Err(WrongFlock)
    else if ev.author != signer.fingerprint then Err(AuthorMismatch)
    else if node.parents != ExpectedParents(ev) then Err(BadParents)
    else if KindOf(ev.body) != ev.kind then Err(BodyKindMismatch)
    else
      var member :- SignerMember(b, ev.kind, signer);
      var _ :- if ev.body.RosterBody? then CheckDevices(b, ev.body.members, signer) else Ok(());
      var _ :- if ev.body.RosterBody? then CheckRoots(b, ev.body.roots, signer) else Ok(());
      if exists i :: 0 <= i < |ev.files| && ev.files[i].root !in b.roots then Err(UndeclaredRoot)
      else
        var _ :- WriterChain(b, ev, signer);
        var target :- CheckRefs(b, ev);
        var closes :- ApplyTable(b, ev, member, target);
        if closes.Some? && closes.value in b.closers
        then Ok(Conflict(SecondCloser(b.closers[closes.value])))
        else Ok(Admit)
  }

  function AdmitVerdict(b: BoardState, node: EventNode, signer: Signer): Verdict {
    match Decide(b, node, signer)
    case Ok(v) => v
    case Err(r) => Refuse(r)
  }
}

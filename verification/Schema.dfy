/** Failure-compatible results shared by every module. */
module Results {
  datatype Option<+T> = None | Some(value: T)

  datatype Result<+T, +E> = Ok(value: T) | Err(error: E) {
    predicate IsFailure() { Err? }

    function PropagateFailure<U>(): Result<U, E>
      requires Err?
    {
      Err(error)
    }

    function Extract(): T
      requires Ok?
    {
      value
    }
  }
}

/**
 What the log is made of: certificates, events, admission records, refusals.

 A content id is the value it names, tagged by what it is: two ids are equal exactly when
 the values are. That is the collision-freedom every hash-linked structure here relies on,
 and it needs no assumption. A key and its fingerprint (hex) are identified in the same way.
 */
module Schema {
  import opened Results

  type Key = string

  datatype Id =
    | GenesisId(genesis: Genesis)
    | EventId(event: EventNode)
    | RecordId(record: RecordNode)
    | CertId(cert: Cert)
    | CertBodyId(certified: Key, meta: Metadata)
    | ApprovalId(approval: ApprovalNode)
    | RefusalId(refusal: RefusalNode)
    | ChallengeId(flock: Id, nonce: nat)
    | PossessionId(issuer: Key, subject: Key, nonce: nat)
    | RawId(digest: nat)

  // ------------------------------------------------------------------ signatures

  /** A detached signature: who made it, over what. `salt` keeps two signatures of one
      message by one key distinct values. */
  datatype Sig = Sig(signer: Key, message: Id, salt: nat)

  predicate SigOk(s: Sig, key: Key, id: Id) {
    s.signer == key && s.message == id
  }

  datatype Scope = All | Only(items: set<nat>)

  /** The generation axis, and every other restriction as a set of named limits (none of
      them is top). */
  datatype Caveats = Caveats(generation: Scope, limits: set<string>)

  const TOP := Caveats(All, {})

  predicate ScopeLeq(a: Scope, b: Scope) {
    b.All? || (a.Only? && a.items <= b.items)
  }

  predicate CaveatsLeq(a: Caveats, b: Caveats) {
    ScopeLeq(a.generation, b.generation) && b.limits <= a.limits
  }

  predicate GenerationOk(s: Scope, generation: nat) {
    s.All? || generation in s.items
  }

  datatype Metadata = Metadata(role: string, caveats: Caveats)

  datatype Issuer =
    | User(user: Key)
    | Agent(pubkey: Key, parent: Cert)

  datatype Cert = Cert(key: Key, meta: Metadata, issuer: Issuer, issuerSig: Sig)

  /** The whole chain holds at `generation`: every link is in scope, signed by its issuer,
      and no link amplifies its parent. */
  predicate VerifyAt(c: Cert, generation: nat) {
    && GenerationOk(c.meta.caveats.generation, generation)
    && match c.issuer
       case User(u) => SigOk(c.issuerSig, u, CertBodyId(c.key, c.meta))
       case Agent(pubkey, parent) =>
         && pubkey == parent.key
         && VerifyAt(parent, generation)
         && SigOk(c.issuerSig, pubkey, CertBodyId(c.key, c.meta))
         && CaveatsLeq(c.meta.caveats, parent.meta.caveats)
  }

  function RootAgent(c: Cert): Key {
    match c.issuer
    case User(_) => c.key
    case Agent(_, parent) => RootAgent(parent)
  }

  /** An author's signature with the certificate chain it is made under. */
  datatype Assertion = Assertion(author: Cert, sig: Sig)

  /** The author signed `id` and its chain is rooted at `root`. */
  predicate Vouches(a: Assertion, id: Id, root: Key, generation: nat) {
    && VerifyAt(a.author, generation)
    && RootAgent(a.author) == root
    && SigOk(a.sig, a.author.key, id)
  }

  /** The author signed `id` with a key `user` certified directly. */
  predicate VouchesForUser(a: Assertion, id: Id, user: Key, generation: nat) {
    && VerifyAt(a.author, generation)
    && a.author.issuer == User(user)
    && SigOk(a.sig, a.author.key, id)
  }

  /** A key as its holder has it: the certificate, and the power to sign. */
  datatype AgentKey = AgentKey(cert: Cert) {
    function Sign(id: Id): Sig { Sig(cert.key, id, 0) }
    function Assert(id: Id): Assertion { Assertion(cert, Sign(id)) }
  }

  // ------------------------------------------------------------------ events

  datatype Kind =
    | Roster | Brief | Review | Ack | Result | Verdict | Job | JobEnd | Ask | Answer
    | RelayedAnswer | Status | Nudged | NudgeMisfire | Pane | Epoch | Renewal | SessionStart
    | DeviceCert | SessionEnd | Handoff | Invite

  datatype Role = Shepherd | Reviewer | Helper | Adapter | Operator

  datatype Member = Member(name: string, role: Role, devices: seq<Key>, delegate: bool)

  datatype Outcome = Completed | Failed

  datatype EndReason = Closed | Lost

  datatype FileRef = FileRef(root: string, path: string, id: Id)

  datatype HandoffApproval = HandoffApproval(
    flock: Id, member: string, from: string, to: string, resume: Id, context: Option<FileRef>)

  datatype ApprovalNode = ApprovalNode(payload: HandoffApproval, parents: set<Id>)

  /** The names a reference goes by; any other name is `Named`. */
  datatype RefRole =
    | Replaces | OfRef | BriefRef | ReviewRef | JobRef | About | AskRef
    | InviteRef | SessionRef | FromRef | ResumeRef | ToRef
    | Named(name: string)

  datatype Body =
    | RosterBody(members: seq<Member>, roots: seq<string>)
    | BriefBody(to: string, lane: string)
    | ReviewBody(to: string, lane: string, head: string)
    | AckBody
    | ResultBody(outcome: Outcome)
    | VerdictBody(head: string, approved: bool)
    | JobBody(lane: string, label_: string)
    | JobEndBody(code: Option<int>, signal: Option<int>)
    | AskBody(askLane: Option<string>, text: string)
    | AnswerBody(text: string)
    | RelayedAnswerBody(text: string)
    | StatusBody(text: string)
    | NudgedBody(target: string)
    | NudgeMisfireBody(target: string, expected: string, found: string)
    | PaneBody(pane: string, tab: string)
    | InviteBody(member: string, verifier: Id)
    | SessionStartBody(member: string, session: string, cert: Cert)
    | SessionEndBody(session: string, reason: EndReason)
    | HandoffBody(from: string, to: string, resume: Id, context: Option<FileRef>,
                  approval: ApprovalNode, approvalSig: Assertion)
    | EpochBody(epoch: nat)
    | RenewalBody(session: string, epoch: nat, cert: Cert)
    | DeviceCertBody(cert: Cert)

  /** The one kind a body is a legal payload for. */
  function KindOf(b: Body): Kind {
    match b
    case RosterBody(_, _) => Kind.Roster
    case BriefBody(_, _) => Kind.Brief
    case ReviewBody(_, _, _) => Kind.Review
    case AckBody => Kind.Ack
    case ResultBody(_) => Kind.Result
    case VerdictBody(_, _) => Kind.Verdict
    case JobBody(_, _) => Kind.Job
    case JobEndBody(_, _) => Kind.JobEnd
    case AskBody(_, _) => Kind.Ask
    case AnswerBody(_) => Kind.Answer
    case RelayedAnswerBody(_) => Kind.RelayedAnswer
    case StatusBody(_) => Kind.Status
    case NudgedBody(_) => Kind.Nudged
    case NudgeMisfireBody(_, _, _) => Kind.NudgeMisfire
    case PaneBody(_, _) => Kind.Pane
    case InviteBody(_, _) => Kind.Invite
    case SessionStartBody(_, _, _) => Kind.SessionStart
    case SessionEndBody(_, _) => Kind.SessionEnd
    case HandoffBody(_, _, _, _, _, _) => Kind.Handoff
    case EpochBody(_) => Kind.Epoch
    case RenewalBody(_, _, _) => Kind.Renewal
    case DeviceCertBody(_) => Kind.DeviceCert
  }

  datatype Genesis = Genesis(name: string, serverCert: Cert, roster: seq<Member>, salt: string)

  datatype Event = Event(
    flock: Id, kind: Kind, author: string, prev: Option<Id>, refs: map<RefRole, Id>,
    files: seq<FileRef>, at: nat, body: Body)

  datatype EventNode = EventNode(payload: Event, parents: set<Id>)

  /** `prev` plus every referenced id. */
  function ExpectedParents(e: Event): set<Id> {
    (if e.prev.Some? then {e.prev.value} else {}) + e.refs.Values
  }

  function NodeOf(e: Event): EventNode {
    EventNode(e, ExpectedParents(e))
  }

  // ------------------------------------------------------------------ admission records

  datatype AdmissionRecord = AdmissionRecord(index: nat, epoch: nat, event: Id, cert: Id)

  datatype RecordNode = RecordNode(payload: AdmissionRecord, parents: set<Id>)

  /** One admitted event: the node, its author's bare signature, the server's record of
      the admission and the server's bare signature over that. */
  datatype Sealed = Sealed(event: EventNode, eventSig: Sig, record: RecordNode, recordSig: Sig)

  /** One transaction. */
  type Frame = seq<Sealed>

  // ------------------------------------------------------------------ signers and refusals

  datatype SignerClass =
    | Server
    | Session(member: string, pending: bool)
    | Device

  datatype Signer = Signer(fingerprint: Key, class_: SignerClass)

  datatype Refusal =
    | WrongFlock | AuthorMismatch | BadParents | BodyKindMismatch | PendingSession
    | UnknownMember | NotAllowed | BadPrev | WriterFork | MissingRef | UnexpectedRef
    | UnknownRef | WrongRefKind | CrossLane | NotAddressee | AdapterCannotAck
    | HeadMismatch | StaleRoster | TooLarge | DevicesLocked | DevicesOnNonOperator
    | NotAListedDevice | DelegateLocked | MultipleDelegates | DuplicateMember
    | RootsLocked | BadRoot | UndeclaredRoot | BadClaim | BadExit

  datatype RefusalRecord = RefusalRecord(event: Id, author: string, reason: Refusal, admitted: nat)

  datatype RefusalNode = RefusalNode(payload: RefusalRecord, parents: set<Id>)

  datatype RefusalEntry = RefusalEntry(record: RefusalNode, sig: Assertion)
}

/**
 The design's own tables, written as rules without an order of checks, and the proof that
 the code admits exactly what they allow.
 */
module DesignTable {
  import opened Results
  import opened Schema
  import opened BoardModel
  import opened Admission
  import opened BoardFold
  import opened BoardLaws
  import opened ChainModel
  import opened SessionModel
  import opened StateModel

  // ------------------------------------------------------------------ who a signer is

  predicate InMember(s: Signer, b: BoardState) {
    s.class_.Session? && !s.class_.pending && OnRoster(b.members, s.class_.member)
  }

  predicate InRole(s: Signer, b: BoardState, role: Role) {
    InMember(s, b) && Find(b.members, s.class_.member).value.role == role
  }

  // ------------------------------------------------------------------ what an event cites

  predicate CitesOnly(ev: Event, roles: set<RefRole>) {
    ev.refs.Keys <= roles
  }

  /** The event cites, under this name, an admitted event of one of these kinds in its lane. */
  predicate Cites(b: BoardState, ev: Event, role: RefRole, kinds: set<Kind>) {
    && role in ev.refs && ev.refs[role] in b.entries
    && b.entries[ev.refs[role]].event.kind in kinds
    && !CrossesLane(ev.body, b.entries[ev.refs[role]].event.body)
  }

  /** What it cites there was addressed to `to`. */
  predicate AddressedTo(b: BoardState, ev: Event, role: RefRole, to: string)
    requires role in ev.refs && ev.refs[role] in b.entries
  {
    Addressee(b.entries[ev.refs[role]].event.body) == Some(to)
  }

  // ------------------------------------------------------------------ the rows

  /** A roster: well formed, replacing the current one; and unless the server signs it, the
      delegate, the operators' devices and the roots stay as they are. */
  predicate RosterRow(b: BoardState, ev: Event, s: Signer) {
    && (s.class_.Server? || InRole(s, b, Shepherd))
    && CitesOnly(ev, {Replaces}) && Replaces in ev.refs && ev.refs[Replaces] == b.rosterId
    && ev.body.RosterBody? && RosterWellFormed(ev.body.members) && RootsWellFormed(ev.body.roots)
    && (s.class_.Server? ||
        (&& DelegateOf(ev.body.members) == DelegateOf(b.members)
         && Bindings(ev.body.members) == Bindings(b.members)
         && AsSet(ev.body.roots) == AsSet(b.roots)))
  }

  predicate NudgeRow(b: BoardState, ev: Event, s: Signer, target: string, texts: seq<string>) {
    && InRole(s, b, Adapter) && OnRoster(b.members, target)
    && CitesOnly(ev, {OfRef})
    && (OfRef in ev.refs ==> Cites(b, ev, OfRef, {Kind.Brief, Kind.Review}) && AddressedTo(b, ev, OfRef, target))
    && forall i :: 0 <= i < |texts| ==> ClaimOk(texts[i])
  }

  /** The row of the table for the event's kind. */
  predicate Row(b: BoardState, ev: Event, s: Signer) {
    match ev.kind
    case Roster => RosterRow(b, ev, s)
    case Brief => InRole(s, b, Shepherd) && CitesOnly(ev, {})
    case Review => InRole(s, b, Shepherd) && CitesOnly(ev, {})
    case Ack =>
      && InMember(s, b) && !InRole(s, b, Adapter)
      && CitesOnly(ev, {OfRef}) && Cites(b, ev, OfRef, {Kind.Brief, Kind.Review})
      && AddressedTo(b, ev, OfRef, s.class_.member)
    case Result =>
      && InMember(s, b)
      && CitesOnly(ev, {BriefRef}) && Cites(b, ev, BriefRef, {Kind.Brief})
      && AddressedTo(b, ev, BriefRef, s.class_.member)
    case Verdict =>
      && InMember(s, b)
      && CitesOnly(ev, {ReviewRef}) && Cites(b, ev, ReviewRef, {Kind.Review})
      && AddressedTo(b, ev, ReviewRef, s.class_.member)
      && ev.body.VerdictBody? && b.entries[ev.refs[ReviewRef]].event.body.ReviewBody?
      && b.entries[ev.refs[ReviewRef]].event.body.head == ev.body.head
    case Job => InMember(s, b) && CitesOnly(ev, {})
    case JobEnd =>
      && InMember(s, b)
      && CitesOnly(ev, {JobRef}) && Cites(b, ev, JobRef, {Kind.Job})
      && b.entries[ev.refs[JobRef]].member == Some(s.class_.member)
      && ev.body.JobEndBody? && (ev.body.code.Some? <==> ev.body.signal.None?)
    case Ask => InMember(s, b) && CitesOnly(ev, {About}) && (About in ev.refs ==> Cites(b, ev, About, {Kind.Brief}))
    case Answer =>
      && s.class_.Device? && ListedDevice(b.members, s.fingerprint)
      && CitesOnly(ev, {AskRef}) && Cites(b, ev, AskRef, {Kind.Ask})
    case RelayedAnswer => InMember(s, b) && CitesOnly(ev, {AskRef}) && Cites(b, ev, AskRef, {Kind.Ask})
    case Status => InRole(s, b, Adapter) && CitesOnly(ev, {})
    case Nudged => ev.body.NudgedBody? && NudgeRow(b, ev, s, ev.body.target, [])
    case NudgeMisfire =>
      ev.body.NudgeMisfireBody? && NudgeRow(b, ev, s, ev.body.target, [ev.body.expected, ev.body.found])
    case Pane =>
      InMember(s, b) && CitesOnly(ev, {}) && ev.body.PaneBody? && ClaimOk(ev.body.pane) && ClaimOk(ev.body.tab)
    case _ => s.class_.Server? && forall r :: r in ev.refs ==> ev.refs[r] in b.entries
  }

  /** A session's event follows its author's head, or, when it has none, nothing or an
      admitted hand-off; an operator's follows nothing. */
  predicate Follows(b: BoardState, ev: Event, s: Signer) {
    match s.class_
    case Server => true
    case Device => ev.prev.None?
    case Session(_, _) =>
      || ev.prev == Get(b.heads, ev.author)
      || (ev.author !in b.heads && ev.prev.Some? && ev.prev.value in b.entries && b.entries[ev.prev.value].event.kind.Handoff?)
  }

  /** New, of this flock, by its signer, with the parents and the body its kind has. */
  predicate WellAddressed(b: BoardState, node: EventNode, s: Signer) {
    && EventId(node) !in b.entries
    && node.payload.flock == b.flock
    && node.payload.author == s.fingerprint
    && node == NodeOf(node.payload)
    && KindOf(node.payload.body) == node.payload.kind
    && forall i :: 0 <= i < |node.payload.files| ==> node.payload.files[i].root in b.roots
  }

  // ------------------------------------------------------------------ the code does what the table says

  lemma SignerAllowed(b: BoardState, k: Kind, s: Signer)
    ensures SignerMember(b, k, s).Ok? <==>
              match s.class_
              case Server => ServerMaySign(k)
              case Device => k.Answer? && ListedDevice(b.members, s.fingerprint)
              case Session(m, _) =>
                InMember(s, b) && SessionMaySign(k, Find(b.members, m).value.role) && !(k.Ack? && InRole(s, b, Adapter))
    ensures SignerMember(b, k, s).Ok? ==> SignerMember(b, k, s).value == SigningMember(s)
  {
    hide OnRoster, ListedDevice;
  }

  lemma ChainAllowed(b: BoardState, ev: Event, s: Signer)
    ensures WriterChain(b, ev, s).Ok? <==> Follows(b, ev, s)
  {
  }

  lemma RosterAllowed(b: BoardState, ev: Event, s: Signer)
    requires ev.body.RosterBody?
    ensures CheckDevices(b, ev.body.members, s).Ok? && CheckRoots(b, ev.body.roots, s).Ok? <==>
              && RosterWellFormed(ev.body.members) && RootsWellFormed(ev.body.roots)
              && (s.class_.Server? ||
                  (&& DelegateOf(ev.body.members) == DelegateOf(b.members)
                   && Bindings(ev.body.members) == Bindings(b.members)
                   && AsSet(ev.body.roots) == AsSet(b.roots)))
  {
    hide DelegateOf, Bindings, AsSet, RootsWellFormed, Delegates, DistinctNames, DevicesOnOperators;
  }

  /** Kinds that take one reference or none: the check is that reference's. */
  lemma OneRule(b: BoardState, ev: Event, rule: RefRule)
    requires RefSpec(ev.kind) == [rule] && !IsServerKind(ev.kind) && !ev.kind.Roster?
    ensures CheckRefs(b, ev).Ok? <==>
              && CitesOnly(ev, {rule.role})
              && (if rule.role in ev.refs then Cites(b, ev, rule.role, rule.kinds) else !rule.required)
    ensures CheckRefs(b, ev).Ok? ==> CheckRefs(b, ev).value == Get(ev.refs, rule.role)
  {
    var spec := [rule];
    assert spec[1..] == [];
    forall r
      ensures InSpec(spec, r) <==> r == rule.role
    {
      assert spec[0].role == rule.role;
    }
    assert CitesOnly(ev, {rule.role}) <==> !exists r :: r in ev.refs && !InSpec(spec, r);
    var one := CheckRef(b, ev, rule);
    assert one.Ok? ==> CheckRules(b, ev, spec[1..], if one.value.Some? then one.value else None) == Ok(one.value);
  }

  lemma NoRule(b: BoardState, ev: Event)
    requires RefSpec(ev.kind) == [] && !IsServerKind(ev.kind)
    ensures CheckRefs(b, ev).Ok? <==> CitesOnly(ev, {})
    ensures CheckRefs(b, ev).Ok? ==> CheckRefs(b, ev).value.None?
  {
    assert forall r :: !InSpec([], r);
    assert CitesOnly(ev, {}) <==> !exists r :: r in ev.refs && !InSpec([], r);
  }

  lemma RosterRefs(b: BoardState, ev: Event)
    requires ev.kind.Roster?
    ensures CheckRefs(b, ev).Ok? <==> CitesOnly(ev, {Replaces}) && Replaces in ev.refs && ev.refs[Replaces] == b.rosterId
    ensures CheckRefs(b, ev).Ok? ==> CheckRefs(b, ev).value.None?
  {
    var rule := RefRule(Replaces, {Kind.Roster}, true);
    var spec := [rule];
    assert RefSpec(ev.kind) == spec && spec[1..] == [];
    forall r
      ensures InSpec(spec, r) <==> r == Replaces
    {
      assert spec[0].role == Replaces;
    }
    assert CitesOnly(ev, {Replaces}) <==> !exists r :: r in ev.refs && !InSpec(spec, r);
    assert CheckRules(b, ev, spec[1..], None) == Ok(None);
  }

  /** References and table together, for what the kind cites. */
  ghost predicate TableAllows(b: BoardState, ev: Event, s: Signer) {
    && SignerMember(b, ev.kind, s).Ok?
    && CheckRefs(b, ev).Ok?
    && ApplyTable(b, ev, SigningMember(s), CheckRefs(b, ev).value).Ok?
  }

  lemma WorkRows(b: BoardState, ev: Event, s: Signer)
    requires KindOf(ev.body) == ev.kind
    requires ev.kind.Ack? || ev.kind.Result? || ev.kind.Verdict? || ev.kind.JobEnd?
    ensures TableAllows(b, ev, s) <==> Row(b, ev, s)
  {
    hide CheckRefs, SignerMember, OnRoster, Find, CrossesLane, ClaimOk, Utf8Len;
    SignerAllowed(b, ev.kind, s);
    OneRule(b, ev, RefSpec(ev.kind)[0]);
  }

  lemma AskRows(b: BoardState, ev: Event, s: Signer)
    requires KindOf(ev.body) == ev.kind
    requires ev.kind.Ask? || ev.kind.Answer? || ev.kind.RelayedAnswer?
    ensures TableAllows(b, ev, s) <==> Row(b, ev, s)
  {
    hide CheckRefs, SignerMember, OnRoster, Find, CrossesLane, ClaimOk, Utf8Len, ListedDevice;
    SignerAllowed(b, ev.kind, s);
    OneRule(b, ev, RefSpec(ev.kind)[0]);
  }

  lemma NudgeRows(b: BoardState, ev: Event, s: Signer)
    requires KindOf(ev.body) == ev.kind
    requires ev.kind.Nudged? || ev.kind.NudgeMisfire?
    ensures TableAllows(b, ev, s) <==> Row(b, ev, s)
  {
    hide CheckRefs, SignerMember, OnRoster, Find, CrossesLane, ClaimOk, Utf8Len;
    SignerAllowed(b, ev.kind, s);
    OneRule(b, ev, RefRule(OfRef, {Kind.Brief, Kind.Review}, false));
  }

  lemma PlainRows(b: BoardState, ev: Event, s: Signer)
    requires KindOf(ev.body) == ev.kind
    requires ev.kind.Brief? || ev.kind.Review? || ev.kind.Job? || ev.kind.Status? || ev.kind.Pane?
    ensures TableAllows(b, ev, s) <==> Row(b, ev, s)
  {
    hide CheckRefs, SignerMember, OnRoster, Find, ClaimOk, Utf8Len;
    SignerAllowed(b, ev.kind, s);
    NoRule(b, ev);
  }

  lemma ServerRows(b: BoardState, ev: Event, s: Signer)
    requires KindOf(ev.body) == ev.kind && IsServerKind(ev.kind)
    ensures TableAllows(b, ev, s) <==> Row(b, ev, s)
  {
    hide SignerMember, OnRoster, Find, ClaimOk, Utf8Len;
    SignerAllowed(b, ev.kind, s);
  }

  lemma RosterRows(b: BoardState, ev: Event, s: Signer)
    requires KindOf(ev.body) == ev.kind && ev.kind.Roster?
    ensures TableAllows(b, ev, s) && CheckDevices(b, ev.body.members, s).Ok? && CheckRoots(b, ev.body.roots, s).Ok? <==> Row(b, ev, s)
  {
    hide CheckRefs, SignerMember, OnRoster, Find, ClaimOk, Utf8Len, CheckDevices, CheckRoots, RosterWellFormed, RootsWellFormed,
         DelegateOf, Bindings, AsSet;
    SignerAllowed(b, ev.kind, s);
    RosterRefs(b, ev);
    RosterAllowed(b, ev, s);
  }

  lemma RowsAgree(b: BoardState, ev: Event, s: Signer)
    requires KindOf(ev.body) == ev.kind
    ensures Row(b, ev, s) <==>
              && TableAllows(b, ev, s)
              && (ev.body.RosterBody? ==> CheckDevices(b, ev.body.members, s).Ok? && CheckRoots(b, ev.body.roots, s).Ok?)
  {
    hide Row, TableAllows, CheckDevices, CheckRoots;
    match ev.kind {
      case Roster => RosterRows(b, ev, s);
      case Brief | Review | Job | Status | Pane => PlainRows(b, ev, s);
      case Ack | Result | Verdict | JobEnd => WorkRows(b, ev, s);
      case Ask | Answer | RelayedAnswer => AskRows(b, ev, s);
      case Nudged | NudgeMisfire => NudgeRows(b, ev, s);
      case _ => ServerRows(b, ev, s);
    }
  }

  /** The decision is the conjunction of its checks, whatever their order. */
  lemma DecideIsItsChecks(b: BoardState, node: EventNode, s: Signer)
    ensures
      var ev := node.payload;
      Admitted(b, node, s) <==>
        && WellAddressed(b, node, s) && WriterChain(b, ev, s).Ok? && TableAllows(b, ev, s)
        && (ev.body.RosterBody? ==> CheckDevices(b, ev.body.members, s).Ok? && CheckRoots(b, ev.body.roots, s).Ok?)
  {
    hide CheckDevices, CheckRoots, WriterChain, CheckRefs, ApplyTable, KindOf, SignerMember;
    SignerAllowed(b, node.payload.kind, s);
    assert node == NodeOf(node.payload) <==> node.parents == ExpectedParents(node.payload);
    assert (exists i :: 0 <= i < |node.payload.files| && node.payload.files[i].root !in b.roots) <==>
        !(forall i :: 0 <= i < |node.payload.files| ==> node.payload.files[i].root in b.roots);
  }

  /**
   The admission function and the design's table are the same: on every board, for every
   event and signer, an event gets in exactly when it is well addressed, follows what it
   must, and its kind's row allows it.
   */
  lemma AdmissionIsTheTable(b: BoardState, node: EventNode, s: Signer)
    ensures Admitted(b, node, s) <==> WellAddressed(b, node, s) && Follows(b, node.payload, s) && Row(b, node.payload, s)
  {
    hide Admitted, TableAllows, Row, CheckDevices, CheckRoots, WriterChain, Follows, KindOf;
    DecideIsItsChecks(b, node, s);
    ChainAllowed(b, node.payload, s);
    if KindOf(node.payload.body) == node.payload.kind {
      RowsAgree(b, node.payload, s);
    }
  }

  // ------------------------------------------------------------------ signer classes

  /** The signer classes of the design. */
  predicate ClassHolds(t: SessionTable, sig: Assertion, event: Id, c: ChainState, epoch: nat, class_: SignerClass) {
    var key := sig.author.key;
    && SigOk(sig.sig, key, event) && VerifyAt(sig.author, epoch)
    && match class_
       case Server => key == c.serverPub && RootAgent(sig.author) == c.serverPub
       case Device => key != c.serverPub && sig.author.issuer == User(c.user) && CertId(sig.author) in t.chains
       case Session(member, pending) =>
         && key != c.serverPub && !sig.author.issuer.User? && RootAgent(sig.author) == c.serverPub
         && key in t.sessions && t.sessions[key].member == member
         && t.sessions[key].status == (if pending then Pending else Active)
         && CertId(sig.author) in t.sessions[key].certs
  }

  /** A signature resolves to a signer exactly when the design's class for it holds, and a
      class is never in doubt. */
  lemma ResolvesByClass(t: SessionTable, sig: Assertion, event: Id, c: ChainState, epoch: nat, s: Signer)
    ensures Resolve(t, sig, event, c.serverPub, c.user, epoch) == Ok(s) <==>
              s.fingerprint == sig.author.key && ClassHolds(t, sig, event, c, epoch, s.class_)
  {
    hide VerifyAt, RootAgent;
  }

  /** The design lets this class of signer put this event in the log. */
  ghost predicate Allows(st: FlockState, node: EventNode, sig: Assertion, class_: SignerClass) {
    var epoch, s := EpochFor(st.chain, node.payload.kind), Signer(sig.author.key, class_);
    && ClassHolds(st.sessions, sig, EventId(node), st.chain, epoch, class_)
    && WellAddressed(st.board, node, s) && Follows(st.board, node.payload, s) && Row(st.board, node.payload, s)
    && Check(st.sessions, st.board, node.payload, epoch, st.chain).Ok?
    && FirstLink(st.sessions, st.board, node.payload).Ok?
    && (sig.author == st.chain.serverCert || CertId(sig.author) in st.sessions.chains)
  }

  /**
   The whole of admission, from a signed event to the entry the server seals for it: on every
   state, an event is taken exactly when some signer class of the design holds of its
   signature, the table's row for its kind allows that class, its session rule and first
   link hold, and the log has the certificate. The class is then the only one that does.
   */
  lemma SealedExactly(st: FlockState, key: AgentKey, node: EventNode, sig: Assertion)
    ensures Prepare(st, key, node, sig).Ok? <==> exists class_ :: Allows(st, node, sig, class_)
    ensures Prepare(st, key, node, sig).Ok? ==>
              && Allows(st, node, sig, Prepare(st, key, node, sig).value.signer.class_)
              && (forall class_ :: Allows(st, node, sig, class_) ==> class_ == Prepare(st, key, node, sig).value.signer.class_)
  {
    hide ClassHolds, WellAddressed, Follows, Row, Check, FirstLink, Resolve, AdmitVerdict, Seal;
    var epoch := EpochFor(st.chain, node.payload.kind);
    forall s: Signer
      ensures Resolve(st.sessions, sig, EventId(node), st.chain.serverPub, st.chain.user, epoch) == Ok(s) <==>
                s.fingerprint == sig.author.key && ClassHolds(st.sessions, sig, EventId(node), st.chain, epoch, s.class_)
      ensures Admitted(st.board, node, s) <==>
                WellAddressed(st.board, node, s) && Follows(st.board, node.payload, s) && Row(st.board, node.payload, s)
    {
      ResolvesByClass(st.sessions, sig, EventId(node), st.chain, epoch, s);
      AdmissionIsTheTable(st.board, node, s);
    }
    if Prepare(st, key, node, sig).Ok? {
      var s := Prepare(st, key, node, sig).value.signer;
      assert Admitted(st.board, node, s);
      assert s == Signer(sig.author.key, s.class_);
      assert Allows(st, node, sig, s.class_);
    }
    forall class_ | Allows(st, node, sig, class_)
      ensures Prepare(st, key, node, sig).Ok? && Prepare(st, key, node, sig).value.signer.class_ == class_
    {
      var s := Signer(sig.author.key, class_);
      assert Admitted(st.board, node, s);
    }
  }

  // ------------------------------------------------------------------ hand-offs

  /** The roster's authority over a member's hand-off: the shepherd's active session for a
      helper, a listed operator device for the shepherd or the delegate. */
  predicate Approves(t: SessionTable, m: Member, b: BoardState, approval: Id, sig: Assertion, c: ChainState, epoch: nat) {
    if sig.author.issuer.User? then
      && ListedDevice(b.members, sig.author.key) && VouchesForUser(sig, approval, c.user, epoch)
      && (m.delegate || m.role == Shepherd)
    else
      && !m.delegate && m.role == Helper
      && sig.author.key in t.sessions
      && ClassHolds(t, sig, approval, c, epoch, Session(t.sessions[sig.author.key].member, false))
      && OnRoster(b.members, t.sessions[sig.author.key].member)
      && Find(b.members, t.sessions[sig.author.key].member).value.role == Shepherd
  }

  lemma ApproverIsAuthority(t: SessionTable, m: Member, b: BoardState, approval: Id, sig: Assertion, c: ChainState, epoch: nat)
    ensures ApproverOk(t, m, b, approval, sig, c, epoch).Ok? <==> Approves(t, m, b, approval, sig, c, epoch)
  {
    hide VerifyAt, RootAgent, OnRoster, ListedDevice;
  }

  /** A hand-off is legal exactly when it is the approved one, for this flock, not yet spent,
      with context; it moves a member's role from the session that holds it to a pending one
      of the same member; it resumes from the old session's last word; it cites both starts
      and that word; and the roster's authority signed the approval. */
  lemma HandoffIsTheDesigns(t: SessionTable, b: BoardState, ev: Event, epoch: nat, c: ChainState)
    requires ev.body.HandoffBody?
    ensures
      var h := ev.body;
      CheckHandoff(t, b, ev, epoch, c).Ok? <==>
        && h.context.Some?
        && h.approval == ApprovalNode(HandoffApproval(b.flock, h.approval.payload.member, h.from, h.to, h.resume, h.context), {})
        && ApprovalId(h.approval) !in t.approvals
        && h.from in t.sessions && t.sessions[h.from].member == h.approval.payload.member
        && h.to in t.sessions && t.sessions[h.to].member == h.approval.payload.member
        && Get(t.holders, h.approval.payload.member) == Some(h.from) && t.sessions[h.to].status == Pending
        && h.resume == LastWord(b, h.from, t.sessions[h.from].start)
        && ev.refs == map[FromRef := t.sessions[h.from].start, ResumeRef := h.resume, ToRef := t.sessions[h.to].start]
        && OnRoster(b.members, h.approval.payload.member)
        && Approves(t, Find(b.members, h.approval.payload.member).value, b, ApprovalId(h.approval), h.approvalSig, c, epoch)
  {
    hide OnRoster, LastWord, ApproverOk, Approves;
    var m := Find(b.members, ev.body.approval.payload.member);
    if m.Some? {
      ApproverIsAuthority(t, m.value, b, ApprovalId(ev.body.approval), ev.body.approvalSig, c, epoch);
    }
  }
}

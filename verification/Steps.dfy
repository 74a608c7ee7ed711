/**
 One admission as a transition, the form every session law is proved over. The live path
 and the replay path both come down to it.
 */
module Steps {
  import opened Results
  import opened Schema
  import opened BoardModel
  import opened Admission
  import opened BoardFold
  import opened BoardLaws
  import opened ChainModel
  import opened SessionModel
  import opened StateModel

  /** An admission: the event, its author's assertion, who that resolved to, the record. */
  datatype Intake = Intake(node: EventNode, sig: Assertion, signer: Signer, record: RecordNode) {
    function Ev(): Event { node.payload }
    function Epoch(): nat { record.payload.epoch }
  }

  /** `a` passes every check in `st`. */
  ghost predicate Passes(st: FlockState, a: Intake) {
    && a.Epoch() == EpochFor(st.chain, a.Ev().kind)
    && a.record.payload == AdmissionRecord(st.chain.nextIndex, a.Epoch(), EventId(a.node), CertId(a.sig.author))
    && a.record.parents == {st.chain.prev}
    && Resolve(st.sessions, a.sig, EventId(a.node), st.chain.serverPub, st.chain.user, a.Epoch()) == Ok(a.signer)
    && Admitted(st.board, a.node, a.signer)
    && Check(st.sessions, st.board, a.Ev(), a.Epoch(), st.chain).Ok?
    && FirstLink(st.sessions, st.board, a.Ev()).Ok?
  }

  function After(st: FlockState, a: Intake): FlockState {
    Taken(st, a.node, a.signer, a.record)
  }

  /** Every certificate is filed under its own id. */
  ghost predicate CertsNamed(t: SessionTable) {
    forall cid {:trigger t.chains[cid]} :: cid in t.chains ==> CertId(t.chains[cid]) == cid
  }

  /** The admission a retained entry replays as. */
  function IntakeOf(st: FlockState, s: Sealed): Intake
    requires Replayed(st, s).Ok?
  {
    var cert := CitedCert(st, s.record.payload.cert).value;
    var sig := Assertion(cert, s.eventSig);
    Intake(s.event, sig, Vet(st, s.event, sig, s.record.payload.epoch).value.0, s.record)
  }

  lemma VetSplits(st: FlockState, node: EventNode, sig: Assertion, epoch: nat)
    ensures Vet(st, node, sig, epoch).Ok? <==>
              && Resolve(st.sessions, sig, EventId(node), st.chain.serverPub, st.chain.user, epoch).Ok?
              && Admitted(st.board, node, Resolve(st.sessions, sig, EventId(node), st.chain.serverPub, st.chain.user, epoch).value)
              && Check(st.sessions, st.board, node.payload, epoch, st.chain).Ok?
              && FirstLink(st.sessions, st.board, node.payload).Ok?
    ensures Vet(st, node, sig, epoch).Ok? ==>
              Resolve(st.sessions, sig, EventId(node), st.chain.serverPub, st.chain.user, epoch)
              == Ok(Vet(st, node, sig, epoch).value.0)
  {
    hide Resolve, Check, FirstLink, Decide;
  }

  /** What replay accepts passes every check, under the certificate its record cites. */
  lemma ReplayPasses(st: FlockState, s: Sealed)
    requires CertsNamed(st.sessions) && Replayed(st, s).Ok?
    ensures Passes(st, IntakeOf(st, s))
    ensures Replayed(st, s).value == After(st, IntakeOf(st, s))
    ensures VerifyAt(st.chain.serverCert, s.record.payload.epoch)
  {
    hide Resolve, Check, FirstLink, Decide, Taken, VerifyAt;
    var cert := CitedCert(st, s.record.payload.cert).value;
    VetSplits(st, s.event, Assertion(cert, s.eventSig), s.record.payload.epoch);
  }

  /** What the live path prepares passes every check. */
  lemma PreparePasses(st: FlockState, key: AgentKey, node: EventNode, sig: Assertion)
    requires Prepare(st, key, node, sig).Ok?
    ensures
      var p := Prepare(st, key, node, sig).value;
      var a := Intake(node, sig, p.signer, p.sealed.record);
      Passes(st, a) && Committed(st, p) == After(st, a)
  {
    hide Resolve, Check, FirstLink, Decide, Taken;
    VetSplits(st, node, sig, EpochFor(st.chain, node.payload.kind));
  }

  /**
   Live equals replay, one admission at a time: what the server sealed, replay takes in to
   the same state, although it is handed no certificate and looks one up by its citation.
   The one thing replay asks that the live path does not is that the genesis certificate
   covers the record's epoch.
   */
  lemma LiveIsReplay(st: FlockState, key: AgentKey, node: EventNode, sig: Assertion)
    requires CertsNamed(st.sessions)
    requires key.cert == st.chain.serverCert && st.chain.serverPub == key.cert.key && key.cert.issuer.User?
    requires Prepare(st, key, node, sig).Ok?
    ensures
      var p := Prepare(st, key, node, sig).value;
      if VerifyAt(st.chain.serverCert, EpochFor(st.chain, node.payload.kind))
      then Replayed(st, p.sealed) == Ok(Committed(st, p))
      else Replayed(st, p.sealed).Err?
  {
    hide Vet, Taken, VerifyAt;
    var p := Prepare(st, key, node, sig).value;
    assert CitedCert(st, CertId(sig.author)) == Ok(sig.author);
    assert Assertion(sig.author, p.sealed.eventSig) == sig;
  }

  // ------------------------------------------------------------------ what passing tells

  /** Only the server signs server kinds; a session that signs is not pending. */
  lemma WhoMaySign(st: FlockState, a: Intake)
    requires Passes(st, a)
    ensures EventId(a.node) !in st.board.entries
    ensures a.Ev().flock == st.board.flock
    ensures a.Ev().author == a.signer.fingerprint == a.sig.author.key
    ensures KindOf(a.Ev().body) == a.Ev().kind
    ensures IsServerKind(a.Ev().kind) ==> a.signer.class_.Server?
    ensures a.signer.class_.Session? ==> !a.signer.class_.pending
    ensures a.signer.class_.Session? ==>
              (a.Ev().author in st.board.heads ==> a.Ev().prev == Some(st.board.heads[a.Ev().author]))
  {
    hide Check, FirstLink, Decide, Admitted, CheckRefs, KindOf, Find;
    EnvelopeHolds(st.board, a.node, a.signer);
  }

  /** A session signer is an active session, signing under a certificate of its own. */
  lemma SessionSigner(st: FlockState, a: Intake)
    requires Passes(st, a) && a.signer.class_.Session?
    ensures a.Ev().author in st.sessions.sessions
    ensures
      var row := st.sessions.sessions[a.Ev().author];
      && row.status == Active
      && a.signer.class_.member == row.member
      && CertId(a.sig.author) in row.certs
      && VerifyAt(a.sig.author, a.Epoch())
      && a.Ev().author != st.chain.serverPub
  {
    hide Check, FirstLink, Decide, VerifyAt, Admitted;
    WhoMaySign(st, a);
  }

  /** A session that gets an event in had its chain head as `prev`. */
  lemma SessionPrev(st: FlockState, a: Intake)
    requires Passes(st, a) && a.signer.class_.Session?
    ensures a.Ev().prev == ChainHead(st.sessions, st.board, a.Ev().author)
  {
    hide Check, Decide, Admitted, Resolve, KindOf;
    WhoMaySign(st, a);
    SessionSigner(st, a);
  }

  lemma BoardAfter(st: FlockState, a: Intake)
    requires Passes(st, a)
    ensures After(st, a).board == Recorded(st.board, a.node, a.signer, Flagged(st.board, ClosedBy(a.Ev())))
  {
    hide Check, FirstLink, Decide, Resolve, Recorded, ClosedBy, Flagged;
    AdmissionFacts(st.board, LogEntry(a.node, a.signer));
  }

  // ------------------------------------------------------------------ effects on the session table

  /** What an event means to the session table. */
  datatype Change =
    | NoChange
    | Invited(id: Id, member: string, verifier: Id)
    | Started(id: Id, invite: Id, member: string, session: string, cert: Cert)
    | Over(session: string)
    | HandedOff(id: Id, member: string, from: string, to: string, approval: Id, resume: Id)
    | Registered(cert: Cert)
    | Renewed(session: string, epoch: nat, cert: Cert)

  function ChangeOf(id: Id, ev: Event): Change {
    match ev.body
    case InviteBody(member, verifier) => Invited(id, member, verifier)
    case SessionStartBody(member, session, cert) =>
      Started(id, if InviteRef in ev.refs then ev.refs[InviteRef] else id, member, session, cert)
    case SessionEndBody(session, _) => Over(session)
    case HandoffBody(from, to, resume, _, approval, _) =>
      HandedOff(id, approval.payload.member, from, to, ApprovalId(approval), resume)
    case DeviceCertBody(cert) => Registered(cert)
    case RenewalBody(session, epoch, cert) => Renewed(session, epoch, cert)
    case _ => NoChange
  }

  /** What the checks establish about a change. */
  ghost predicate Legal(t: SessionTable, c: Change, epoch: nat, server: Key) {
    match c
    case NoChange => true
    case Registered(_) => true
    case Invited(_, _, verifier) => verifier !in t.verifiers
    case Started(_, invite, member, session, cert) =>
      && invite in t.invites && t.invites[invite] == InviteRow(member, false)
      && session !in t.sessions && CertOk(cert, session, epoch, server).Ok?
    case Over(session) => Live(t, session)
    case HandedOff(_, member, from, to, approval, _) =>
      && from in t.sessions && to in t.sessions
      && t.sessions[from].member == member == t.sessions[to].member
      && Get(t.holders, member) == Some(from)
      && t.sessions[to].status == Pending
      && approval !in t.approvals
    case Renewed(session, e, cert) =>
      && Live(t, session) && e == epoch && t.sessions[session].epoch < e
      && CertOk(cert, session, epoch, server).Ok?
  }

  /** The table after a legal change. */
  ghost function Changed(t: SessionTable, c: Change, epoch: nat, server: Key): SessionTable
    requires Legal(t, c, epoch, server)
  {
    match c
    case NoChange => t
    case Registered(cert) => t.(chains := t.chains[CertId(cert) := cert])
    case Invited(id, member, verifier) =>
      t.(verifiers := t.verifiers[verifier := id], invites := t.invites[id := InviteRow(member, false)])
    case Started(id, invite, member, session, cert) =>
      var first := member !in t.seen;
      t.(invites := t.invites[invite := InviteRow(member, true)],
         seen := t.seen + {member},
         holders := if first then t.holders[member := session] else t.holders,
         chains := t.chains[CertId(cert) := cert],
         sessions := t.sessions[session := SessionRow(
           member, session, id, if first then Active else Pending, {CertId(cert)}, epoch, None)])
    case Over(session) =>
      t.(sessions := t.sessions[session := t.sessions[session].(status := Ended)])
    case HandedOff(id, member, from, to, approval, _) =>
      var over := t.sessions[from := t.sessions[from].(status := Ended)];
      t.(approvals := t.approvals + {approval},
         sessions := over[to := over[to].(status := Active, activatedBy := Some(id))],
         holders := t.holders[member := to])
    case Renewed(session, e, cert) =>
      var row := t.sessions[session];
      t.(chains := t.chains[CertId(cert) := cert],
         sessions := t.sessions[session := row.(certs := row.certs + {CertId(cert)}, epoch := e)])
  }

  /** A step's effect on the table is a legal change. */
  ghost predicate Effect(st: FlockState, a: Intake, t': SessionTable) {
    var c := ChangeOf(EventId(a.node), a.Ev());
    && Legal(st.sessions, c, a.Epoch(), st.chain.serverPub)
    && t' == Changed(st.sessions, c, a.Epoch(), st.chain.serverPub)
    && (c.HandedOff? ==> c.resume == LastWord(st.board, c.from, st.sessions.sessions[c.from].start))
    && (c.Started? ==> InviteRef in a.Ev().refs)
  }

  lemma StartChange(t: SessionTable, ev: Event, id: Id, epoch: nat, server: Key)
    requires ev.body.SessionStartBody?
    requires CheckStart(t, ev, ev.body.member, ev.body.session, ev.body.cert, epoch, server).Ok?
    ensures InviteRef in ev.refs
    ensures
      var c := Started(id, ev.refs[InviteRef], ev.body.member, ev.body.session, ev.body.cert);
      Legal(t, c, epoch, server) && ObservedStart(t, id, ev, epoch) == Changed(t, c, epoch, server)
  {
    hide VerifyAt;
  }

  lemma HandoffChange(t: SessionTable, b: BoardState, ev: Event, id: Id, epoch: nat, chain: ChainState)
    requires ev.body.HandoffBody? && CheckHandoff(t, b, ev, epoch, chain).Ok?
    ensures
      var h := ev.body;
      var c := HandedOff(id, h.approval.payload.member, h.from, h.to, ApprovalId(h.approval), h.resume);
      && Legal(t, c, epoch, chain.serverPub)
      && ObservedHandoff(t, id, ev) == Changed(t, c, epoch, chain.serverPub)
      && h.resume == LastWord(b, h.from, t.sessions[h.from].start)
  {
    hide VerifyAt, ApproverOk, LastWord, Find;
  }

  lemma RenewalChange(t: SessionTable, ev: Event, epoch: nat, server: Key)
    requires ev.body.RenewalBody?
    requires CheckRenewal(t, ev, ev.body.session, ev.body.epoch, ev.body.cert, epoch, server).Ok?
    ensures
      var c := Renewed(ev.body.session, ev.body.epoch, ev.body.cert);
      Legal(t, c, epoch, server) && ObservedRenewal(t, ev) == Changed(t, c, epoch, server)
  {
    hide CertOk;
  }

  lemma EffectOf(st: FlockState, a: Intake)
    requires Passes(st, a)
    ensures Effect(st, a, After(st, a).sessions)
  {
    hide FirstLink, Decide, Admitted, Resolve, CertOk, OnRoster, CheckStart, CheckHandoff, CheckRenewal,
         ObservedStart, ObservedHandoff, ObservedRenewal, LastWord, Applied;
    var t, ev, id := st.sessions, a.Ev(), EventId(a.node);
    if ev.body.SessionStartBody? {
      StartChange(t, ev, id, a.Epoch(), st.chain.serverPub);
    } else if ev.body.HandoffBody? {
      HandoffChange(t, st.board, ev, id, a.Epoch(), st.chain);
    } else if ev.body.RenewalBody? {
      RenewalChange(t, ev, a.Epoch(), st.chain.serverPub);
    }
  }

  /** The entry a step puts on the board. */
  function EntryOf(st: FlockState, a: Intake): Entry {
    Entry(EventId(a.node), |st.board.order| + 1, a.Ev(), SigningMember(a.signer), Flagged(st.board, ClosedBy(a.Ev())))
  }

  /** The board with one more entry, as far as order, entries and heads go. */
  ghost predicate Grown(b: BoardState, b': BoardState, e: Entry) {
    && e.id !in b.entries && e.id.EventId? && e.id.event.payload == e.event && e.index == |b.order| + 1
    && b'.flock == b.flock
    && b'.entries == b.entries[e.id := e]
    && b'.order == b.order + [e.id]
    && b'.heads == b.heads[e.event.author := e.id]
  }

  /** What a step does, without the table that let it through. */
  ghost predicate Moves(st: FlockState, a: Intake, st': FlockState) {
    && Grown(st.board, st'.board, EntryOf(st, a))
    && st'.chain == Advanced(st.chain, RecordId(a.record), a.record.payload)
    && a.Epoch() == EpochFor(st.chain, a.Ev().kind)
    && KindOf(a.Ev().body) == a.Ev().kind
    && Effect(st, a, st'.sessions)
    && a.Ev().author == a.sig.author.key
    && a.record.payload.cert == CertId(a.sig.author)
    && (IsServerKind(a.Ev().kind) ==> a.signer.class_.Server?)
    && (a.signer.class_.Server? ==> a.Ev().author == st.chain.serverPub)
    && (a.signer.class_.Session? ==>
          && a.Ev().author in st.sessions.sessions
          && st.sessions.sessions[a.Ev().author].status == Active
          && st.sessions.sessions[a.Ev().author].member == a.signer.class_.member
          && CertId(a.sig.author) in st.sessions.sessions[a.Ev().author].certs
          && VerifyAt(a.sig.author, a.Epoch())
          && a.Ev().prev == ChainHead(st.sessions, st.board, a.Ev().author))
  }

  lemma MovesOf(st: FlockState, a: Intake)
    requires Passes(st, a)
    ensures Moves(st, a, After(st, a))
  {
    hide Check, FirstLink, Decide, Admitted, Effect, VerifyAt, KindOf, ChainHead, Flagged, ClosedBy, Observed;
    WhoMaySign(st, a);
    BoardAfter(st, a);
    EffectOf(st, a);
    if a.signer.class_.Session? {
      SessionSigner(st, a);
      SessionPrev(st, a);
    }
  }
}

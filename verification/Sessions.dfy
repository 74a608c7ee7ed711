/** Admission records: where the chain stands, and which record comes next. */
module ChainModel {
  import opened Results
  import opened Schema

  datatype ChainState = ChainState(
    prev: Id, nextIndex: nat, epoch: nat, serverPub: Key, serverCert: Cert, user: Key)

  datatype RecordFault = BadRecordSignature | NotAChild | NotNextIndex | NamesAnotherEvent | EpochOutOfStep

  function ChainStart(g: Genesis, user: Key): ChainState {
    ChainState(GenesisId(g), 1, 0, g.serverCert.key, g.serverCert, user)
  }

  /** The epoch in force once an event of this kind is in. */
  function EpochFor(c: ChainState, k: Kind): nat {
    c.epoch + if k.Epoch? then 1 else 0
  }

  function Advanced(c: ChainState, record: Id, rec: AdmissionRecord): ChainState {
    c.(prev := record, nextIndex := c.nextIndex + 1, epoch := rec.epoch)
  }

  /** The ids of an entry and its record, if that record is next: the server signed it, its one
      parent and its index and epoch are what the chain expects, and it is for this entry. */
  function VerifyRecord(c: ChainState, s: Sealed): Result<(Id, Id), RecordFault> {
    var rec := s.record.payload;
    var recordId := RecordId(s.record);
    if !Vouches(Assertion(c.serverCert, s.recordSig), recordId, c.serverPub, rec.epoch) then Err(BadRecordSignature)
    else if s.record.parents != {c.prev} then Err(NotAChild)
    else if rec.index != c.nextIndex then Err(NotNextIndex)
    else if rec.event != EventId(s.event) then Err(NamesAnotherEvent)
    else if rec.epoch != EpochFor(c, s.event.payload.kind) then Err(EpochOutOfStep)
    else Ok((EventId(s.event), recordId))
  }

  /** Seal an event as the next admission. */
  function Seal(server: AgentKey, c: ChainState, epoch: nat, event: EventNode, sig: Assertion): Sealed {
    var record := RecordNode(AdmissionRecord(c.nextIndex, epoch, EventId(event), CertId(sig.author)), {c.prev});
    Sealed(event, sig.sig, record, server.Sign(RecordId(record)))
  }

  class Chain {
    var prev: Id
    var nextIndex: nat
    var epoch: nat
    const serverPub: Key
    const serverCert: Cert
    const user: Key

    function View(): ChainState
      reads this
    {
      ChainState(prev, nextIndex, epoch, serverPub, serverCert, user)
    }

    constructor (c: ChainState)
      ensures View() == c
    {
      prev, nextIndex, epoch := c.prev, c.nextIndex, c.epoch;
      serverPub, serverCert, user := c.serverPub, c.serverCert, c.user;
    }

    method Advance(record: Id, rec: AdmissionRecord)
      modifies this
      ensures View() == Advanced(old(View()), record, rec)
    {
      prev := record;
      nextIndex := nextIndex + 1;
      epoch := rec.epoch;
    }
  }
}

/** Sessions, invites, holders and certificates, and the rules that change them. */
module SessionModel {
  import opened Results
  import opened Schema
  import opened BoardModel
  import opened ChainModel

  datatype Standing = Active | Pending | Ended

  datatype SessionRow = SessionRow(
    member: string, pubkey: Key, start: Id, status: Standing, certs: set<Id>, epoch: nat,
    activatedBy: Option<Id>)

  datatype InviteRow = InviteRow(member: string, consumed: bool)

  datatype SessionTable = SessionTable(
    invites: map<Id, InviteRow>,
    verifiers: map<Id, Id>,
    sessions: map<string, SessionRow>,
    seen: set<string>,
    holders: map<string, string>,
    approvals: set<Id>,
    chains: map<Id, Cert>)

  const EMPTY := SessionTable(map[], map[], map[], {}, map[], {}, map[])

  datatype Fault =
    | DeviceNotRegistered | BadSignature | NotASession | SessionOver | NotItsCertificate
    | InviteOffRoster | WrongRefs | VerifierReused | UnknownInvite | InviteConsumed
    | InviteForAnother | KeyEnrolled | CertForAnotherKey | CertInvalid | CertNotFromServer
    | CertNotBounded | NotLive | EpochMismatch | AlreadyCertified | NotADeviceCert
    | ServerIsNoDevice | DeviceRegistered | ApprovalForAnotherFlock | DiffersFromApproval
    | NoContext | ApprovalConsumed | UnknownSession | NotTheMembersSessions | NotTheHolder
    | NotPending | ResumeNotTheHead | MemberOffRoster | NotAListedApprover
    | DeviceApprovesOthers | DelegateNeedsDevice | NotARosterAuthority | NotAShepherd
    | FirstEventNotOnHandoff | FirstEventOnAnothersHandoff

  function Bounded(epoch: nat): Caveats {
    Caveats(Only({epoch}), {})
  }

  function CertOk(cert: Cert, session: string, epoch: nat, server: Key): Result<(), Fault> {
    if cert.key != session then Err(CertForAnotherKey)
    else if !VerifyAt(cert, epoch) then Err(CertInvalid)
    else if !(cert.issuer.Agent? && cert.issuer.pubkey == server) then Err(CertNotFromServer)
    else if cert.meta.caveats != Bounded(epoch) then Err(CertNotBounded)
    else Ok(())
  }

  /** The signer of `event` and its class: the server's key, a registered device's, or that of
      a session still pending or active which signed under one of its own certificates; the
      chain must hold at `epoch`. */
  function Resolve(t: SessionTable, sig: Assertion, event: Id, server: Key, user: Key, epoch: nat): Result<Signer, Fault> {
    var key := sig.author.key;
    if key == server then
      if Vouches(sig, event, server, epoch) then Ok(Signer(key, Server)) else Err(BadSignature)
    else if sig.author.issuer.User? then
      if CertId(sig.author) !in t.chains then Err(DeviceNotRegistered)
      else if !VouchesForUser(sig, event, user, epoch) then Err(BadSignature)
      else Ok(Signer(key, Device))
    else if key !in t.sessions then Err(NotASession)
    else
      var s := t.sessions[key];
      if s.status == Ended then Err(SessionOver)
      else if CertId(sig.author) !in s.certs then Err(NotItsCertificate)
      else if !Vouches(sig, event, server, epoch) then Err(BadSignature)
      else Ok(Signer(key, Session(s.member, s.status == Pending)))
  }

  predicate Live(t: SessionTable, session: string) {
    session in t.sessions && t.sessions[session].status != Ended
  }

  function CheckInvite(t: SessionTable, b: BoardState, ev: Event, member: string, verifier: Id): Result<(), Fault> {
    if !OnRoster(b.members, member) then Err(InviteOffRoster)
    else if ev.refs != map[] then Err(WrongRefs)
    else if verifier in t.verifiers then Err(VerifierReused)
    else Ok(())
  }

  function CheckStart(t: SessionTable, ev: Event, member: string, session: string, cert: Cert, epoch: nat, server: Key)
    : Result<(), Fault>
  {
    if InviteRef !in ev.refs || ev.refs[InviteRef] !in t.invites then Err(UnknownInvite)
    else
      var id := ev.refs[InviteRef];
      if ev.refs != map[InviteRef := id] then Err(WrongRefs)
      else if t.invites[id].consumed then Err(InviteConsumed)
      else if t.invites[id].member != member then Err(InviteForAnother)
      else if session in t.sessions then Err(KeyEnrolled)
      else CertOk(cert, session, epoch, server)
  }

  function CheckEnd(t: SessionTable, ev: Event, session: string): Result<(), Fault> {
    if !Live(t, session) then Err(NotLive)
    else if ev.refs != map[SessionRef := t.sessions[session].start] then Err(WrongRefs)
    else Ok(())
  }

  function CheckEpoch(ev: Event, e: nat, epoch: nat): Result<(), Fault> {
    if ev.refs != map[] then Err(WrongRefs)
    else if e != epoch then Err(EpochMismatch)
    else Ok(())
  }

  function CheckRenewal(t: SessionTable, ev: Event, session: string, e: nat, cert: Cert, epoch: nat, server: Key): Result<(), Fault> {
    if !Live(t, session) then Err(NotLive)
    else if ev.refs != map[SessionRef := t.sessions[session].start] then Err(WrongRefs)
    else if e != epoch then Err(EpochMismatch)
    else if t.sessions[session].epoch >= epoch then Err(AlreadyCertified)
    else CertOk(cert, session, epoch, server)
  }

  function CheckDevice(t: SessionTable, ev: Event, cert: Cert, epoch: nat, c: ChainState): Result<(), Fault> {
    if ev.refs != map[] then Err(WrongRefs)
    else if cert.issuer != User(c.user) then Err(NotADeviceCert)
    else if cert.key == c.serverPub then Err(ServerIsNoDevice)
    else if !VerifyAt(cert, epoch) then Err(CertInvalid)
    else if CertId(cert) in t.chains then Err(DeviceRegistered)
    else Ok(())
  }

  /** The session's last head, or its start when it never wrote. */
  function LastWord(b: BoardState, session: string, start: Id): Id {
    if session in b.heads then b.heads[session] else start
  }

  /** The approval's signer had the say over this member: a device when the member is the
      shepherd or the delegate, otherwise the session of the shepherd, for helpers only. */
  function ApproverOk(t: SessionTable, member: Member, b: BoardState, approval: Id, sig: Assertion, c: ChainState, epoch: nat)
    : Result<(), Fault>
  {
    if sig.author.issuer.User? then
      if !ListedDevice(b.members, sig.author.key) then Err(NotAListedApprover)
      else if !VouchesForUser(sig, approval, c.user, epoch) then Err(BadSignature)
      else if member.delegate || member.role == Shepherd then Ok(())
      else Err(DeviceApprovesOthers)
    else if member.delegate then Err(DelegateNeedsDevice)
    else
      var signer :- Resolve(t, sig, approval, c.serverPub, c.user, epoch);
      if !(signer.class_.Session? && !signer.class_.pending) then Err(NotARosterAuthority)
      else
        var approver := Find(b.members, signer.class_.member);
        if approver.Some? && approver.value.role == Shepherd && member.role == Helper then Ok(())
        else Err(NotAShepherd)
  }

  function CheckHandoff(t: SessionTable, b: BoardState, ev: Event, epoch: nat, c: ChainState): Result<(), Fault>
    requires ev.body.HandoffBody?
  {
    var h := ev.body;
    var a := h.approval.payload;
    if h.approval.parents != {} || a.flock != b.flock then Err(ApprovalForAnotherFlock)
    else if (a.from, a.to, a.resume, a.context) != (h.from, h.to, h.resume, h.context) then Err(DiffersFromApproval)
    else if a.context.None? then Err(NoContext)
    else if ApprovalId(h.approval) in t.approvals then Err(ApprovalConsumed)
    else if h.from !in t.sessions || h.to !in t.sessions then Err(UnknownSession)
    else
      var f, to := t.sessions[h.from], t.sessions[h.to];
      if f.member != a.member || to.member != a.member then Err(NotTheMembersSessions)
      else if Get(t.holders, a.member) != Some(h.from) then Err(NotTheHolder)
      else if to.status != Pending then Err(NotPending)
      else if h.resume != LastWord(b, h.from, f.start) then Err(ResumeNotTheHead)
      else if ev.refs != map[FromRef := f.start, ResumeRef := h.resume, ToRef := to.start] then Err(WrongRefs)
      else
        match Find(b.members, a.member)
        case None => Err(MemberOffRoster)
        case Some(m) => ApproverOk(t, m, b, ApprovalId(h.approval), h.approvalSig, c, epoch)
  }

  /** The rule the table has for this kind of event, given what it holds; other kinds have none. */
  function Check(t: SessionTable, b: BoardState, ev: Event, epoch: nat, c: ChainState): Result<(), Fault> {
    match ev.body
    case InviteBody(member, verifier) => CheckInvite(t, b, ev, member, verifier)
    case SessionStartBody(member, session, cert) => CheckStart(t, ev, member, session, cert, epoch, c.serverPub)
    case SessionEndBody(session, _) => CheckEnd(t, ev, session)
    case EpochBody(e) => CheckEpoch(ev, e, epoch)
    case RenewalBody(session, e, cert) => CheckRenewal(t, ev, session, e, cert, epoch, c.serverPub)
    case DeviceCertBody(cert) => CheckDevice(t, ev, cert, epoch, c)
    case HandoffBody(_, _, _, _, _, _) => CheckHandoff(t, b, ev, epoch, c)
    case _ => Ok(())
  }

  /** A session's latest event; before it has one, the hand-off that made it active, if any. */
  function ChainHead(t: SessionTable, b: BoardState, session: string): Option<Id> {
    if session in b.heads then Some(b.heads[session])
    else if session in t.sessions then t.sessions[session].activatedBy
    else None
  }

  /** Binds the first event of a session to how the session became active: `prev` is that
      hand-off, or nothing. */
  function FirstLink(t: SessionTable, b: BoardState, ev: Event): Result<(), Fault> {
    if ev.author !in t.sessions || ev.author in b.heads then Ok(())
    else
      var by_ := t.sessions[ev.author].activatedBy;
      if by_.Some? && ev.prev != by_ then Err(FirstEventNotOnHandoff)
      else if by_.None? && ev.prev.Some? then Err(FirstEventOnAnothersHandoff)
      else Ok(())
  }

  // ------------------------------------------------------------------ taking an event in

  function ObservedStart(t: SessionTable, id: Id, ev: Event, epoch: nat): SessionTable
    requires ev.body.SessionStartBody?
  {
    var s := ev.body;
    var first := s.member !in t.seen;
    t.(
      invites :=
        if InviteRef in ev.refs && ev.refs[InviteRef] in t.invites
        then t.invites[ev.refs[InviteRef] := t.invites[ev.refs[InviteRef]].(consumed := true)]
        else t.invites,
      seen := t.seen + {s.member},
      holders := if first then t.holders[s.member := s.session] else t.holders,
      chains := t.chains[CertId(s.cert) := s.cert],
      sessions := t.sessions[s.session := SessionRow(
        s.member, s.cert.key, id, if first then Active else Pending, {CertId(s.cert)}, epoch, None)])
  }

  function WithStatus(rows: map<string, SessionRow>, session: string, status: Standing): map<string, SessionRow> {
    if session in rows then rows[session := rows[session].(status := status)] else rows
  }

  function ObservedHandoff(t: SessionTable, id: Id, ev: Event): SessionTable
    requires ev.body.HandoffBody?
  {
    var h := ev.body;
    var over := WithStatus(t.sessions, h.from, Ended);
    t.(
      approvals := t.approvals + {ApprovalId(h.approval)},
      sessions :=
        if h.to in over then over[h.to := over[h.to].(status := Active, activatedBy := Some(id))] else over,
      holders := if h.to in over then t.holders[over[h.to].member := h.to] else t.holders)
  }

  function ObservedRenewal(t: SessionTable, ev: Event): SessionTable
    requires ev.body.RenewalBody?
  {
    var r := ev.body;
    if r.session in t.sessions then
      var row := t.sessions[r.session];
      t.(chains := t.chains[CertId(r.cert) := r.cert],
         sessions := t.sessions[r.session := row.(certs := row.certs + {CertId(r.cert)}, epoch := r.epoch)])
    else t
  }

  function Observed(t: SessionTable, id: Id, ev: Event, epoch: nat): SessionTable {
    match ev.body
    case InviteBody(member, verifier) =>
      t.(verifiers := t.verifiers[verifier := id], invites := t.invites[id := InviteRow(member, false)])
    case SessionStartBody(_, _, _) => ObservedStart(t, id, ev, epoch)
    case SessionEndBody(session, _) => t.(sessions := WithStatus(t.sessions, session, Ended))
    case HandoffBody(_, _, _, _, _, _) => ObservedHandoff(t, id, ev)
    case DeviceCertBody(cert) => t.(chains := t.chains[CertId(cert) := cert])
    case RenewalBody(_, _, _) => ObservedRenewal(t, ev)
    case _ => t
  }

  class Sessions {
    var invites: map<Id, InviteRow>
    var verifiers: map<Id, Id>
    var sessions: map<string, SessionRow>
    var seen: set<string>
    var holders: map<string, string>
    var approvals: set<Id>
    var chains: map<Id, Cert>

    function View(): SessionTable
      reads this
    {
      SessionTable(invites, verifiers, sessions, seen, holders, approvals, chains)
    }

    constructor (t: SessionTable)
      ensures View() == t
    {
      invites, verifiers, sessions, seen := t.invites, t.verifiers, t.sessions, t.seen;
      holders, approvals, chains := t.holders, t.approvals, t.chains;
    }

    /** Record an admitted event; only server events change anything. */
    method Observe(id: Id, ev: Event, epoch: nat)
      modifies this
      ensures View() == Observed(old(View()), id, ev, epoch)
    {
      hide ObservedStart, ObservedHandoff, ObservedRenewal;
      if ev.body.InviteBody? {
        verifiers := verifiers[ev.body.verifier := id];
        invites := invites[id := InviteRow(ev.body.member, false)];
      } else if ev.body.SessionStartBody? {
        ObserveStart(id, ev, epoch);
      } else if ev.body.SessionEndBody? {
        SetStatus(ev.body.session, Ended);
      } else if ev.body.HandoffBody? {
        ObserveHandoff(id, ev);
      } else if ev.body.DeviceCertBody? {
        chains := chains[CertId(ev.body.cert) := ev.body.cert];
      } else if ev.body.RenewalBody? {
        ObserveRenewal(ev);
      }
    }

    method ObserveStart(id: Id, ev: Event, epoch: nat)
      requires ev.body.SessionStartBody?
      modifies this
      ensures View() == ObservedStart(old(View()), id, ev, epoch)
    {
      var SessionStartBody(member, session, cert) := ev.body;
      if InviteRef in ev.refs && ev.refs[InviteRef] in invites {
        var i := ev.refs[InviteRef];
        invites := invites[i := invites[i].(consumed := true)];
      }
      var status := Pending;
      if member !in seen {
        seen := seen + {member};
        holders := holders[member := session];
        status := Active;
      } else {
        assert seen + {member} == seen;
      }
      chains := chains[CertId(cert) := cert];
      sessions := sessions[session := SessionRow(member, cert.key, id, status, {CertId(cert)}, epoch, None)];
    }

    method ObserveHandoff(id: Id, ev: Event)
      requires ev.body.HandoffBody?
      modifies this
      ensures View() == ObservedHandoff(old(View()), id, ev)
    {
      var HandoffBody(from, to, _, _, approval, _) := ev.body;
      approvals := approvals + {ApprovalId(approval)};
      SetStatus(from, Ended);
      if to in sessions {
        sessions := sessions[to := sessions[to].(status := Active, activatedBy := Some(id))];
        holders := holders[sessions[to].member := to];
      }
    }

    method ObserveRenewal(ev: Event)
      requires ev.body.RenewalBody?
      modifies this
      ensures View() == ObservedRenewal(old(View()), ev)
    {
      var RenewalBody(session, e, cert) := ev.body;
      if session in sessions {
        var row := sessions[session];
        chains := chains[CertId(cert) := cert];
        sessions := sessions[session := row.(certs := row.certs + {CertId(cert)}, epoch := e)];
      }
    }

    method SetStatus(session: string, status: Standing)
      modifies this`sessions
      ensures sessions == WithStatus(old(sessions), session, status)
    {
      if session in sessions {
        sessions := sessions[session := sessions[session].(status := status)];
      }
    }
  }
}

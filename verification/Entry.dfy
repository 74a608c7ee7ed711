/** Enrolling and renewing: possession challenges, each answered once, and what answering
    one does. */
module EntryModel {
  import opened Results
  import opened Schema
  import opened BoardModel
  import opened Admission
  import opened ChainModel
  import opened SessionModel
  import opened StateModel
  import opened SessionLaws
  import opened FlockLaws
  import opened ServerModel
  import opened LiveReplay
  import opened CrashLaws
  import opened Progress
  import opened Steps
  import opened BoardLaws
  import opened BoardFold
  import opened WorkLines
  import opened Ratchet

  datatype Challenge = Challenge(issuer: Key, subject: Key, nonce: nat) {
    /** What the holder of the subject key signs. */
    function Message(): Id { PossessionId(issuer, subject, nonce) }
  }

  /** The one thing a possession challenge can be redeemed for. */
  datatype Purpose =
    | ForEnrollment(invite: Id, member: string)
    | ForRenewal(session: string, epoch: nat)

  datatype Held = Held(challenge: Challenge, purpose: Purpose)

  type Desk = map<nat, Held>

  datatype EntryError =
    | UnknownToken | TokenConsumed | TokenForAnother | AlreadyEnrolled
    | NotIssuedOrUsed | WrongPurpose | NoPossession | Amplifies
    | NotLiveNow | NotLogged | AlreadyCurrent | EpochMoved
    | CallFailed(why: ServerError)

  // ------------------------------------------------------------------ challenges

  function Issued(d: Desk, c: Challenge, p: Purpose): Desk {
    d[c.nonce := Held(c, p)]
  }

  /** Consume a challenge: whatever is presented, that nonce is spent. */
  function TakenFrom(d: Desk, c: Challenge): (Desk, Result<Purpose, EntryError>) {
    (d - {c.nonce},
     if c.nonce in d && d[c.nonce].challenge == c then Ok(d[c.nonce].purpose) else Err(NotIssuedOrUsed))
  }

  datatype DeskStep = Issue(c: Challenge, p: Purpose) | Take(c: Challenge)

  function DeskAfter(d: Desk, steps: seq<DeskStep>): Desk {
    if |steps| == 0 then d
    else
      var before := DeskAfter(d, steps[..|steps| - 1]);
      match steps[|steps| - 1]
      case Issue(c, p) => Issued(before, c, p)
      case Take(c) => TakenFrom(before, c).0
  }

  /** Step `i` took a challenge, successfully. */
  ghost predicate TookAt(steps: seq<DeskStep>, i: int, c: Challenge) {
    0 <= i < |steps| && steps[i] == Take(c) && TakenFrom(DeskAfter(map[], steps[..i]), c).1.Ok?
  }

  /** A challenge is held only if it was issued, and not taken since. */
  lemma {:induction false} HeldWasIssued(steps: seq<DeskStep>, c: Challenge)
    requires c.nonce in DeskAfter(map[], steps) && DeskAfter(map[], steps)[c.nonce].challenge == c
    ensures exists k :: 0 <= k < |steps| && steps[k] == Issue(c, DeskAfter(map[], steps)[c.nonce].purpose)
              && forall j :: k < j < |steps| ==> steps[j] != Take(c)
  {
    var n := |steps|;
    var init := steps[..n - 1];
    var p := DeskAfter(map[], steps)[c.nonce].purpose;
    if steps[n - 1] != Issue(c, p) {
      HeldWasIssued(init, c);
      var k :| 0 <= k < |init| && init[k] == Issue(c, p) && forall j :: k < j < |init| ==> init[j] != Take(c);
      assert steps[k] == Issue(c, p);
      assert forall j :: k < j < n - 1 ==> steps[j] == init[j];
    }
  }

  /** A challenge is answered at most once for each time it was issued: between two answers
      that were taken there is another issue of it. */
  lemma AnsweredOnce(steps: seq<DeskStep>, i: int, j: int, c: Challenge)
    requires i < j && TookAt(steps, i, c) && TookAt(steps, j, c)
    ensures exists k, p :: i < k < j && steps[k] == Issue(c, p)
  {
    HeldWasIssued(steps[..j], c);
    var k :| 0 <= k < j && steps[..j][k] == Issue(c, DeskAfter(map[], steps[..j])[c.nonce].purpose)
             && forall m :: k < m < j ==> steps[..j][m] != Take(c);
    assert steps[..j][i] == Take(c);
    assert steps[k] == steps[..j][k];
  }

  // ------------------------------------------------------------------ what the entry points check

  /** A token that is known, unused and for this member; a key nobody enrolled. */
  function EnrollBegun(st: FlockState, token: Id, member: string, pubkey: Key): Result<Purpose, EntryError> {
    var t := st.sessions;
    if token !in t.verifiers || t.verifiers[token] !in t.invites then Err(UnknownToken)
    else
      var invite := t.invites[t.verifiers[token]];
      if invite.consumed then Err(TokenConsumed)
      else if invite.member != member then Err(TokenForAnother)
      else if pubkey in t.sessions then Err(AlreadyEnrolled)
      else Ok(ForEnrollment(t.verifiers[token], member))
  }

  /** Succeeds for a live session whose certified epoch is past, shown one of its own
      certificates. */
  function RenewBegun(st: FlockState, last: Cert): Result<Purpose, EntryError> {
    if !Live(st.sessions, last.key) then Err(NotLiveNow)
    else if CertId(last) !in st.sessions.sessions[last.key].certs then Err(NotLogged)
    else if st.sessions.sessions[last.key].epoch >= st.chain.epoch then Err(AlreadyCurrent)
    else Ok(ForRenewal(last.key, st.chain.epoch))
  }

  /** A fresh certificate for the challenged key, good at this one epoch, if the proof is that
      key's over this challenge. */
  function Certified(key: AgentKey, c: Challenge, proof: Sig, member: string, epoch: nat): Result<Cert, EntryError> {
    var meta := Metadata(member, Bounded(epoch));
    if c.issuer != key.cert.key then Err(NoPossession)
    else if !SigOk(proof, c.subject, c.Message()) then Err(NoPossession)
    else if !CaveatsLeq(meta.caveats, key.cert.meta.caveats) then Err(Amplifies)
    else Ok(Cert(c.subject, meta, Agent(key.cert.key, key.cert), key.Sign(CertBodyId(c.subject, meta))))
  }

  /** A certificate the server mints passes every check of its own, for the proven key and
      for no other. */
  lemma MintedFits(cfg: Config, st: FlockState, c: Challenge, proof: Sig, member: string, session: string)
    requires Sound(st, cfg.genesis) && cfg.key.cert == cfg.genesis.serverCert
    requires Certified(cfg.key, c, proof, member, st.chain.epoch).Ok?
    ensures
      var cert := Certified(cfg.key, c, proof, member, st.chain.epoch).value;
      CertOk(cert, session, st.chain.epoch, st.chain.serverPub).Ok? <==> session == c.subject
  {
    hide Sound;
    SoundNames(st, cfg.genesis);
    var cert := Certified(cfg.key, c, proof, member, st.chain.epoch).value;
    assert VerifyAt(cert.issuer.parent, st.chain.epoch);
    assert GenerationOk(cert.meta.caveats.generation, st.chain.epoch);
  }

  lemma StartChecks(cfg: Config, st: FlockState, invite: Id, member: string, cert: Cert)
    requires invite in st.sessions.invites && st.sessions.invites[invite].member == member
    ensures
      var ev := ServerEvent(st, cfg.key, Kind.SessionStart, map[InviteRef := invite], SessionStartBody(member, cert.key, cert)).0.payload;
      Check(st.sessions, st.board, ev, st.chain.epoch, st.chain).Ok? <==>
        && !st.sessions.invites[invite].consumed && cert.key !in st.sessions.sessions
        && CertOk(cert, cert.key, st.chain.epoch, st.chain.serverPub).Ok?
  {
    hide CertOk;
  }

  lemma InviteOnBoard(st: FlockState, g: Genesis, invite: Id)
    requires Sound(st, g) && invite in st.sessions.invites
    ensures invite in st.board.entries
  {
    hide VerifyAt, InvitesSpentOnce, ApprovalsSpentOnce, ServerKeyed, ChainOk, RoleOk, HolderOk, StartOk;
    assert InviteOk(st, invite);
  }

  /**
   The last step of enrolment. The invite was there when the challenge was issued; whatever
   has happened since, proving possession of the key now starts the session exactly when
   the token is still unused and the key still unknown. The new session is active if it is
   the member's first and pending otherwise, and the token is spent with it.
   */
  lemma EnrollmentCommits(cfg: Config, st: FlockState, c: Challenge, proof: Sig, invite: Id, member: string)
    requires Sound(st, cfg.genesis) && ServerDated(st) && cfg.key.cert == cfg.genesis.serverCert
    requires invite in st.sessions.invites && st.sessions.invites[invite].member == member
    requires Certified(cfg.key, c, proof, member, st.chain.epoch).Ok?
    ensures
      var cert := Certified(cfg.key, c, proof, member, st.chain.epoch).value;
      var built := Built(cfg, st, SpecsOf(st, Enroll(invite, member, cert)).value);
      && (built.Ok? <==> !st.sessions.invites[invite].consumed && c.subject !in st.sessions.sessions)
      && (built.Ok? ==>
            var t' := built.value.1.sessions;
            && c.subject in t'.sessions && t'.sessions[c.subject].member == member
            && t'.sessions[c.subject].status == (if member in st.sessions.seen then Pending else Active)
            && t'.sessions[c.subject].epoch == st.chain.epoch == built.value.1.chain.epoch
            && invite in t'.invites && t'.invites[invite].consumed
            && t'.sessions - {c.subject} == st.sessions.sessions)
  {
    hide Sound, ServerDated, VerifyAt, Certified, Check, Built, ServerEvent, CertOk;
    var cert := Certified(cfg.key, c, proof, member, st.chain.epoch).value;
    var spec := Spec(Kind.SessionStart, map[InviteRef := invite], SessionStartBody(member, cert.key, cert));
    CertNames(cfg, c, proof, member, st.chain.epoch);
    SoundNames(st, cfg.genesis);
    InviteOnBoard(st, cfg.genesis, invite);
    MintedFits(cfg, st, c, proof, member, c.subject);
    StartChecks(cfg, st, invite, member, cert);
    OneServerEvent(cfg, st, spec);
    if Built(cfg, st, [spec]).Ok? {
      OneEventLeaves(cfg, st, spec);
      OneEventRefs(cfg, st, spec);
    }
  }

  lemma CertNames(cfg: Config, c: Challenge, proof: Sig, member: string, epoch: nat)
    requires Certified(cfg.key, c, proof, member, epoch).Ok?
    ensures Certified(cfg.key, c, proof, member, epoch).value.key == c.subject
  {
  }

  lemma OneEventRefs(cfg: Config, st: FlockState, spec: Spec)
    requires Built(cfg, st, [spec]).Ok?
    ensures var f := Built(cfg, st, [spec]).value.0; |f| == 1 && f[0].event.payload.refs == spec.refs
  {
    hide Prepare, Taken;
    assert [spec][..0] == [];
    assert Built(cfg, st, [spec][..0]) == Ok(([], st));
    var (node, sig) := ServerEvent(st, cfg.key, spec.kind, spec.refs, spec.body);
    SealedEvent(st, cfg.key, node, sig);
  }

  lemma RenewChecks(cfg: Config, st: FlockState, session: string, cert: Cert)
    requires Live(st.sessions, session)
    ensures
      var ev := ServerEvent(st, cfg.key, Kind.Renewal, map[SessionRef := st.sessions.sessions[session].start],
                            RenewalBody(session, st.chain.epoch, cert)).0.payload;
      Check(st.sessions, st.board, ev, st.chain.epoch, st.chain).Ok? <==>
        && st.sessions.sessions[session].epoch < st.chain.epoch
        && CertOk(cert, session, st.chain.epoch, st.chain.serverPub).Ok?
  {
    hide CertOk;
  }

  /** The last step of renewal: answering the challenge brings a live session up to the
      epoch exactly when it is behind it and the proven key is its own; then, and only in
      that, the table changes. */
  lemma RenewalCommits(cfg: Config, st: FlockState, c: Challenge, proof: Sig, session: string)
    requires Sound(st, cfg.genesis) && ServerDated(st) && cfg.key.cert == cfg.genesis.serverCert && Live(st.sessions, session)
    requires Certified(cfg.key, c, proof, st.sessions.sessions[session].member, st.chain.epoch).Ok?
    ensures
      var row := st.sessions.sessions[session];
      var cert := Certified(cfg.key, c, proof, row.member, st.chain.epoch).value;
      var built := Built(cfg, st, SpecsOf(st, Renew(session, cert)).value);
      && (built.Ok? <==> row.epoch < st.chain.epoch && c.subject == session)
      && (built.Ok? ==>
            built.value.1.sessions.sessions
            == st.sessions.sessions[session := row.(certs := row.certs + {CertId(cert)}, epoch := st.chain.epoch)])
  {
    hide Sound, ServerDated, VerifyAt, Certified, Check, Built, ServerEvent, CertOk;
    var row := st.sessions.sessions[session];
    var cert := Certified(cfg.key, c, proof, row.member, st.chain.epoch).value;
    var spec := Spec(Kind.Renewal, map[SessionRef := row.start], RenewalBody(session, st.chain.epoch, cert));
    SoundNames(st, cfg.genesis);
    StartOnBoard(st, cfg.genesis, session);
    MintedFits(cfg, st, c, proof, row.member, session);
    RenewChecks(cfg, st, session, cert);
    OneServerEvent(cfg, st, spec);
    if Built(cfg, st, [spec]).Ok? {
      OneEventLeaves(cfg, st, spec);
    }
  }

  /** A renewal challenge is issued exactly to a live session that is behind, on a certificate
      the log put down for it; and, as long as nothing has happened since, answering that
      challenge with the session's own key renews it. */
  lemma RenewalAnswers(cfg: Config, st: FlockState, last: Cert, nonce: nat, proof: Sig)
    requires Sound(st, cfg.genesis) && ServerDated(st) && cfg.key.cert == cfg.genesis.serverCert
    ensures RenewBegun(st, last).Ok? <==>
              && Live(st.sessions, last.key) && CertId(last) in st.sessions.sessions[last.key].certs
              && st.sessions.sessions[last.key].epoch < st.chain.epoch
    ensures RenewBegun(st, last).Ok? ==>
              && RenewBegun(st, last).value == ForRenewal(last.key, st.chain.epoch)
              && last.key in st.sessions.sessions
              && var row := st.sessions.sessions[last.key];
              var cert := Certified(cfg.key, Challenge(cfg.key.cert.key, row.pubkey, nonce), proof, row.member, st.chain.epoch);
              cert.Ok? ==> Built(cfg, st, SpecsOf(st, Renew(last.key, cert.value)).value).Ok?
  {
    hide Sound, ServerDated, Certified, Built, SpecsOf;
    if RenewBegun(st, last).Ok? {
      var row := st.sessions.sessions[last.key];
      var c := Challenge(cfg.key.cert.key, row.pubkey, nonce);
      KeyIsItsOwn(st, cfg.genesis, last.key);
      if Certified(cfg.key, c, proof, row.member, st.chain.epoch).Ok? {
        RenewalCommits(cfg, st, c, proof, last.key);
      }
    }
  }

  lemma KeyIsItsOwn(st: FlockState, g: Genesis, session: string)
    requires Sound(st, g) && session in st.sessions.sessions
    ensures st.sessions.sessions[session].pubkey == session
  {
    hide VerifyAt, BoardInv, InvitesSpentOnce, ApprovalsSpentOnce, ServerKeyed, ChainOk, RoleOk, HolderOk, InviteOk, CertsOk, LinesOk,
         ResumesKept;
    assert StartOk(st, session);
  }

  // ------------------------------------------------------------------ the other calls

  lemma InviteChecks(cfg: Config, st: FlockState, member: string, verifier: Id)
    ensures
      var ev := ServerEvent(st, cfg.key, Kind.Invite, map[], InviteBody(member, verifier)).0.payload;
      Check(st.sessions, st.board, ev, st.chain.epoch, st.chain).Ok? <==>
        OnRoster(st.board.members, member) && verifier !in st.sessions.verifiers
  {
    hide OnRoster;
  }

  /** An invite is recorded exactly for a member on the roster under a fresh verifier, and is
      then there, unused, under that verifier. */
  lemma InvitationCommits(cfg: Config, st: FlockState, member: string, verifier: Id)
    requires Sound(st, cfg.genesis) && ServerDated(st) && cfg.key.cert == cfg.genesis.serverCert
    ensures
      var built := Built(cfg, st, SpecsOf(st, Call.Invite(member, verifier)).value);
      && (built.Ok? <==> OnRoster(st.board.members, member) && verifier !in st.sessions.verifiers)
      && (built.Ok? ==>
            var t' := built.value.1.sessions;
            && verifier in t'.verifiers && t'.verifiers[verifier] in t'.invites
            && t'.invites[t'.verifiers[verifier]] == InviteRow(member, false)
            && t'.sessions == st.sessions.sessions)
  {
    hide Sound, ServerDated, VerifyAt, Check, Built, ServerEvent, OnRoster;
    var spec := Spec(Kind.Invite, map[], InviteBody(member, verifier));
    SoundNames(st, cfg.genesis);
    InviteChecks(cfg, st, member, verifier);
    OneServerEvent(cfg, st, spec);
    if Built(cfg, st, [spec]).Ok? {
      OneEventLeaves(cfg, st, spec);
    }
  }

  lemma LastWordOnBoard(st: FlockState, g: Genesis, session: string)
    requires Sound(st, g) && session in st.sessions.sessions
    ensures st.sessions.sessions[session].start in st.board.entries
    ensures LastWord(st.board, session, st.sessions.sessions[session].start) in st.board.entries
  {
    hide VerifyAt, InvitesSpentOnce, ApprovalsSpentOnce, ServerKeyed, ChainOk, RoleOk, HolderOk, InviteOk, CertsOk, LinesOk,
         ResumesKept, Consistent, FirstCloserWins, TargetsFit, OneRosterLine, Locked, HeadCovers;
    assert StartOk(st, session);
  }

  /** The hand-off's first event, whatever it names: it is sealed exactly when its rule holds. */
  lemma HandoffPrepares(cfg: Config, st: FlockState, approval: ApprovalNode, sig: Assertion)
    requires Sound(st, cfg.genesis) && ServerDated(st) && cfg.key.cert == cfg.genesis.serverCert
    requires approval.payload.from in st.sessions.sessions && approval.payload.to in st.sessions.sessions
    ensures
      var spec := SpecsOf(st, HandOff(approval, sig)).value[0];
      var ev := ServerEvent(st, cfg.key, spec.kind, spec.refs, spec.body).0.payload;
      && (Built(cfg, st, [spec]).Ok? <==> CheckHandoff(st.sessions, st.board, ev, st.chain.epoch, st.chain).Ok?)
      && (Built(cfg, st, [spec]).Ok? ==> ServerDated(Built(cfg, st, [spec]).value.1))
  {
    hide Sound, ServerDated, VerifyAt, CheckHandoff, LastWord, Built;
    var a := approval.payload;
    var spec := SpecsOf(st, HandOff(approval, sig)).value[0];
    var ev := ServerEvent(st, cfg.key, spec.kind, spec.refs, spec.body).0.payload;
    SoundNames(st, cfg.genesis);
    LastWordOnBoard(st, cfg.genesis, a.from);
    LastWordOnBoard(st, cfg.genesis, a.to);
    if a.resume in st.board.entries {
      OneServerEvent(cfg, st, spec);
    } else {
      ResumeIsChecked(st, ev);
      BuiltIsChecked(cfg, st, spec);
    }
  }

  lemma ResumeIsChecked(st: FlockState, ev: Event)
    requires ev.body.HandoffBody?
    ensures CheckHandoff(st.sessions, st.board, ev, st.chain.epoch, st.chain).Ok? ==>
              ev.body.from in st.sessions.sessions
              && ev.body.resume == LastWord(st.board, ev.body.from, st.sessions.sessions[ev.body.from].start)
  {
    hide ApproverOk, LastWord, OnRoster;
  }

  /** Whatever is built passed its session rule. */
  lemma BuiltIsChecked(cfg: Config, st: FlockState, spec: Spec)
    ensures
      var ev := ServerEvent(st, cfg.key, spec.kind, spec.refs, spec.body).0.payload;
      Built(cfg, st, [spec]).Ok? ==> Check(st.sessions, st.board, ev, EpochFor(st.chain, spec.kind), st.chain).Ok?
  {
    hide Vet, CitedCert, Taken, Check, Resolve, Admitted, FirstLink;
    assert [spec][..0] == [];
    assert Built(cfg, st, [spec][..0]) == Ok(([], st));
    var (node, sig) := ServerEvent(st, cfg.key, spec.kind, spec.refs, spec.body);
    if Prepare(st, cfg.key, node, sig).Ok? {
      PreparePasses(st, cfg.key, node, sig);
    }
  }

  /** The role moved: the old session over, the new one active and the holder, the approval
      spent, and no other session changed. */
  ghost predicate RoleMoved(t: SessionTable, t': SessionTable, approval: ApprovalNode) {
    var a := approval.payload;
    && a.from != a.to
    && a.from in t'.sessions && t'.sessions[a.from].status == Ended
    && a.to in t'.sessions && t'.sessions[a.to].status == Active && t'.sessions[a.to].activatedBy.Some?
    && t'.holders == t.holders[a.member := a.to]
    && t'.approvals == t.approvals + {ApprovalId(approval)} && ApprovalId(approval) !in t.approvals
    && t'.sessions - {a.from, a.to} == t.sessions - {a.from, a.to}
  }

  /** A hand-off commits exactly when its rule holds and the genesis certificate covers the
      next epoch; in that one frame the role moves and the epoch with it. */
  lemma HandoffCommits(cfg: Config, st: FlockState, approval: ApprovalNode, sig: Assertion)
    requires Sound(st, cfg.genesis) && ServerDated(st) && cfg.key.cert == cfg.genesis.serverCert
    requires approval.payload.from in st.sessions.sessions && approval.payload.to in st.sessions.sessions
    ensures
      var specs := SpecsOf(st, HandOff(approval, sig)).value;
      var ev := ServerEvent(st, cfg.key, specs[0].kind, specs[0].refs, specs[0].body).0.payload;
      var built := Built(cfg, st, specs);
      && (built.Ok? <==>
            && CheckHandoff(st.sessions, st.board, ev, st.chain.epoch, st.chain).Ok?
            && VerifyAt(cfg.genesis.serverCert, st.chain.epoch + 1))
      && (built.Ok? ==>
            && built.value.1.chain.epoch == st.chain.epoch + 1
            && RoleMoved(st.sessions, built.value.1.sessions, approval))
  {
    hide Sound, ServerDated, VerifyAt, Built, ServerEvent, CheckHandoff, RoleMoved, Observed;
    var specs := SpecsOf(st, HandOff(approval, sig)).value;
    var first := specs[0];
    assert specs == [first, BumpSpec(st)];
    HandoffPrepares(cfg, st, approval, sig);
    BuiltSplits(cfg, st, first, BumpSpec(st));
    if Built(cfg, st, [first]).Ok? {
      OneEventLeaves(cfg, st, first);
      var (f, mid) := Built(cfg, st, [first]).value;
      BuiltIsChecked(cfg, st, first);
      HandoffMoves(cfg, st, approval, sig, EventId(f[0].event), f[0].event.payload);
      BumpAfter(cfg, mid, BumpSpec(st));
    }
  }

  lemma BumpAfter(cfg: Config, st: FlockState, bump: Spec)
    requires Sound(st, cfg.genesis) && ServerDated(st) && cfg.key.cert == cfg.genesis.serverCert
    requires bump == BumpSpec(st)
    ensures Built(cfg, st, [bump]).Ok? <==> VerifyAt(cfg.genesis.serverCert, st.chain.epoch + 1)
    ensures Built(cfg, st, [bump]).Ok? ==>
              var next := Built(cfg, st, [bump]).value.1; next.sessions == st.sessions && next.chain.epoch == st.chain.epoch + 1
  {
    hide Sound, ServerDated, VerifyAt, Built, ServerEvent, Check;
    BumpChecks(st, cfg, st.chain.epoch + 1);
    OneServerEvent(cfg, st, bump);
    if Built(cfg, st, [bump]).Ok? {
      OneEventLeaves(cfg, st, bump);
    }
  }

  /** What taking in a legal hand-off does to the table. */
  lemma HandoffMoves(cfg: Config, st: FlockState, approval: ApprovalNode, sig: Assertion, id: Id, ev: Event)
    requires approval.payload.from in st.sessions.sessions && approval.payload.to in st.sessions.sessions
    requires
      var spec := SpecsOf(st, HandOff(approval, sig)).value[0];
      && Check(st.sessions, st.board, ServerEvent(st, cfg.key, spec.kind, spec.refs, spec.body).0.payload, st.chain.epoch, st.chain).Ok?
      && ev.body == spec.body
    requires Sound(st, cfg.genesis)
    ensures RoleMoved(st.sessions, Observed(st.sessions, id, ev, st.chain.epoch), approval)
  {
    hide ApproverOk, LastWord, OnRoster, VerifyAt, BoardInv, InvitesSpentOnce, ApprovalsSpentOnce, ServerKeyed, ChainOk, RoleOk,
         InviteOk, StartOk, CertsOk, LinesOk, ResumesKept;
    assert HolderOk(st.sessions, approval.payload.member);
  }

  // ------------------------------------------------------------------ a session's whole life

  lemma UnboundedHolds(g: Genesis, epoch: nat)
    requires g.serverCert.issuer.User? && VerifyAt(g.serverCert, 0) && g.serverCert.meta.caveats == TOP
    ensures VerifyAt(g.serverCert, epoch)
  {
  }

  /** The call commits and leaves this state. */
  ghost predicate Commits(cfg: Config, st: FlockState, call: Call, next: FlockState) {
    && SpecsOf(st, call).Ok?
    && Built(cfg, st, SpecsOf(st, call).value).Ok?
    && Built(cfg, st, SpecsOf(st, call).value).value.1 == next
  }

  /** From here a session with this key can be invited, enrolled on a proof of possession,
      and ended: live in between, active exactly if the member's first, over at the end. */
  ghost predicate CanLive(cfg: Config, st: FlockState, member: string, verifier: Id, c: Challenge, proof: Sig) {
    exists invited, invite, cert, enrolled, ended ::
      && Commits(cfg, st, Call.Invite(member, verifier), invited)
      && EnrollBegun(invited, verifier, member, c.subject) == Ok(ForEnrollment(invite, member))
      && Certified(cfg.key, c, proof, member, invited.chain.epoch) == Ok(cert)
      && Commits(cfg, invited, Enroll(invite, member, cert), enrolled)
      && Live(enrolled.sessions, c.subject) && enrolled.sessions.sessions[c.subject].member == member
      && (enrolled.sessions.sessions[c.subject].status == Active <==> member !in st.sessions.seen)
      && Commits(cfg, enrolled, EndSession(c.subject, EndReason.Closed), ended)
      && !Live(ended.sessions, c.subject) && ended.chain.epoch == st.chain.epoch + 1
  }

  /**
   A session can always be brought up and put down: in every reachable state of an honest
   server whose certificate is unbounded, for every member on the roster, every fresh token
   and every key nobody enrolled, inviting, answering the challenge and ending all commit,
   one after the other.
   */
  lemma LifeOfASession(cfg: Config, st: FlockState, member: string, verifier: Id, c: Challenge, proof: Sig)
    requires Sound(st, cfg.genesis) && ServerDated(st) && cfg.key.cert == cfg.genesis.serverCert && GenesisOk(cfg.genesis)
    requires cfg.genesis.serverCert.meta.caveats == TOP
    requires OnRoster(st.board.members, member) && verifier !in st.sessions.verifiers
    requires c.issuer == cfg.key.cert.key && c.subject !in st.sessions.sessions && SigOk(proof, c.subject, c.Message())
    ensures CanLive(cfg, st, member, verifier, c, proof)
  {
    hide Sound, ServerDated, VerifyAt, Built, OnRoster, Certified, RosterWellFormed;
    var invite := SpecsOf(st, Call.Invite(member, verifier)).value;
    InvitationCommits(cfg, st, member, verifier);
    BuiltDated(cfg, st, invite);
    var invited := Built(cfg, st, invite).value.1;
    InvitingKeepsSeen(cfg, st, member, verifier);
    TopCertifies(cfg, c, proof, member, invited.chain.epoch);
    var cert := Certified(cfg.key, c, proof, member, invited.chain.epoch).value;
    var id := invited.sessions.verifiers[verifier];
    EnrollmentCommits(cfg, invited, c, proof, id, member);
    var enroll := SpecsOf(invited, Enroll(id, member, cert)).value;
    BuiltDated(cfg, invited, enroll);
    var enrolled := Built(cfg, invited, enroll).value.1;
    EndingBuilds(cfg, enrolled, c.subject, EndReason.Closed);
    UnboundedHolds(cfg.genesis, enrolled.chain.epoch + 1);
    var ended := Built(cfg, enrolled, SpecsOf(enrolled, EndSession(c.subject, EndReason.Closed)).value).value.1;
    assert Commits(cfg, st, Call.Invite(member, verifier), invited);
    assert Commits(cfg, invited, Enroll(id, member, cert), enrolled);
    assert Commits(cfg, enrolled, EndSession(c.subject, EndReason.Closed), ended);
  }

  lemma InvitingKeepsSeen(cfg: Config, st: FlockState, member: string, verifier: Id)
    requires Sound(st, cfg.genesis) && cfg.key.cert == cfg.genesis.serverCert
    requires Built(cfg, st, SpecsOf(st, Call.Invite(member, verifier)).value).Ok?
    ensures
      var next := Built(cfg, st, SpecsOf(st, Call.Invite(member, verifier)).value).value.1;
      next.sessions.seen == st.sessions.seen && next.chain.epoch == st.chain.epoch
  {
    hide Sound, Built;
    OneEventLeaves(cfg, st, Spec(Kind.Invite, map[], InviteBody(member, verifier)));
  }

  lemma TopCertifies(cfg: Config, c: Challenge, proof: Sig, member: string, epoch: nat)
    requires cfg.key.cert.meta.caveats == TOP && c.issuer == cfg.key.cert.key && SigOk(proof, c.subject, c.Message())
    ensures Certified(cfg.key, c, proof, member, epoch).Ok?
  {
  }
}

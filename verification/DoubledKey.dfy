/** A session under the server's own key, and a hand-off that is its last word's undoing. */
module DoubledKey {
  import opened Results
  import opened Schema
  import opened BoardModel
  import opened Admission
  import opened BoardFold
  import opened BoardLaws
  import opened SessionModel
  import opened StateModel
  import opened History
  import opened SessionLaws
  import opened FlockLaws
  import opened FrameLaws
  import opened FlockTheorems
  import opened ServerModel
  import opened LiveReplay
  import opened Progress
  import opened EntryModel
  import opened DesignTable
  import opened EarlyClose

  // ------------------------------------------------------------------ joining

  /** A session of this member has joined, and nothing else has changed that a hand-off looks
      at. */
  ghost predicate Joined(st: FlockState, next: FlockState, member: string, session: string, verifier: Id) {
    && next.board.members == st.board.members && next.chain.epoch == st.chain.epoch
    && session in next.sessions.sessions && next.sessions.sessions[session].member == member
    && next.sessions.sessions[session].status == (if member in st.sessions.seen then Pending else Active)
    && next.sessions.sessions - {session} == st.sessions.sessions
    && next.sessions.approvals == st.sessions.approvals
    && member in next.sessions.seen
    && next.sessions.verifiers.Keys == st.sessions.verifiers.Keys + {verifier}
  }

  lemma InviteLeaves(cfg: Config, st: FlockState, member: string, verifier: Id)
    requires Sound(st, cfg.genesis) && cfg.key.cert == cfg.genesis.serverCert
    requires Built(cfg, st, SpecsOf(st, Call.Invite(member, verifier)).value).Ok?
    ensures
      var next := Built(cfg, st, SpecsOf(st, Call.Invite(member, verifier)).value).value.1;
      && next.sessions.approvals == st.sessions.approvals && next.sessions.seen == st.sessions.seen
      && next.sessions.sessions == st.sessions.sessions
      && next.sessions.verifiers.Keys == st.sessions.verifiers.Keys + {verifier}
      && next.board.members == st.board.members && next.chain.epoch == st.chain.epoch
  {
    hide Sound, Built;
    var spec := Spec(Kind.Invite, map[], InviteBody(member, verifier));
    OneEventLeaves(cfg, st, spec);
    RosterKept(cfg, st, spec);
  }

  lemma EnrollLeaves(cfg: Config, st: FlockState, invite: Id, member: string, cert: Cert)
    requires Sound(st, cfg.genesis) && cfg.key.cert == cfg.genesis.serverCert
    requires Built(cfg, st, SpecsOf(st, Enroll(invite, member, cert)).value).Ok?
    ensures
      var next := Built(cfg, st, SpecsOf(st, Enroll(invite, member, cert)).value).value.1;
      && next.sessions.approvals == st.sessions.approvals && next.sessions.verifiers == st.sessions.verifiers
      && next.sessions.seen == st.sessions.seen + {member}
      && next.board.members == st.board.members && next.chain.epoch == st.chain.epoch
  {
    hide Sound, Built;
    var spec := Spec(Kind.SessionStart, map[InviteRef := invite], SessionStartBody(member, cert.key, cert));
    OneEventLeaves(cfg, st, spec);
    OneEventRefs(cfg, st, spec);
    RosterKept(cfg, st, spec);
  }

  lemma Joins(cfg: Config, frames: seq<Frame>, st: FlockState, member: string, verifier: Id, c: Challenge, proof: Sig)
    requires Leads(cfg, frames, st) && cfg.key.cert == cfg.genesis.serverCert && cfg.genesis.serverCert.meta.caveats == TOP
    requires OnRoster(st.board.members, member) && verifier !in st.sessions.verifiers
    requires c.issuer == cfg.key.cert.key && c.subject !in st.sessions.sessions && SigOk(proof, c.subject, c.Message())
    ensures exists f, f', next :: Leads(cfg, frames + [f] + [f'], next) && Joined(st, next, member, c.subject, verifier)
  {
    hide Leads, Sound, ServerDated, VerifyAt, Built, OnRoster, Certified, Rebuilt;
    LeadsTo(cfg, frames, st);
    InvitationCommits(cfg, st, member, verifier);
    var (f, mid) := Built(cfg, st, SpecsOf(st, Call.Invite(member, verifier)).value).value;
    CallLeads(cfg, frames, st, Call.Invite(member, verifier));
    InviteLeaves(cfg, st, member, verifier);
    Enrolls(cfg, frames + [f], mid, mid.sessions.verifiers[verifier], member, c, proof);
    var f', next :| Leads(cfg, frames + [f] + [f'], next) && Enrolled(mid, next, member, c.subject);
    assert Joined(st, next, member, c.subject, verifier);
  }

  ghost predicate Enrolled(st: FlockState, next: FlockState, member: string, session: string) {
    && next.board.members == st.board.members && next.chain.epoch == st.chain.epoch
    && session in next.sessions.sessions && next.sessions.sessions[session].member == member
    && next.sessions.sessions[session].status == (if member in st.sessions.seen then Pending else Active)
    && next.sessions.sessions - {session} == st.sessions.sessions
    && next.sessions.approvals == st.sessions.approvals && next.sessions.verifiers == st.sessions.verifiers
    && member in next.sessions.seen
  }

  lemma Enrolls(cfg: Config, frames: seq<Frame>, st: FlockState, invite: Id, member: string, c: Challenge, proof: Sig)
    requires Leads(cfg, frames, st) && cfg.key.cert == cfg.genesis.serverCert && cfg.genesis.serverCert.meta.caveats == TOP
    requires invite in st.sessions.invites && st.sessions.invites[invite] == InviteRow(member, false)
    requires c.issuer == cfg.key.cert.key && c.subject !in st.sessions.sessions && SigOk(proof, c.subject, c.Message())
    ensures exists f, next :: Leads(cfg, frames + [f], next) && Enrolled(st, next, member, c.subject)
  {
    hide Leads, Sound, ServerDated, VerifyAt, Built, Certified, Rebuilt;
    LeadsTo(cfg, frames, st);
    TopCertifies(cfg, c, proof, member, st.chain.epoch);
    var cert := Certified(cfg.key, c, proof, member, st.chain.epoch).value;
    EnrollmentCommits(cfg, st, c, proof, invite, member);
    var (f, next) := Built(cfg, st, SpecsOf(st, Enroll(invite, member, cert)).value).value;
    CallLeads(cfg, frames, st, Enroll(invite, member, cert));
    EnrollLeaves(cfg, st, invite, member, cert);
    assert Leads(cfg, frames + [f], next) && Enrolled(st, next, member, c.subject);
  }

  // ------------------------------------------------------------------ handing the role on

  /** Two sessions of one shepherd: one active and one waiting, and no approval spent. */
  ghost predicate TwoSessions(st: FlockState, from: string, to: string, m: Member, op: Member) {
    && from != to && st.board.members == [m, op] && m.role == Shepherd && op.role == Operator
    && from in st.sessions.sessions && to in st.sessions.sessions
    && st.sessions.sessions[from].member == m.name == st.sessions.sessions[to].member
    && st.sessions.sessions[from].status == Active && st.sessions.sessions[to].status == Pending
    && st.sessions.approvals == {}
  }

  /** What the authority approves: from here, at the old session's last word. */
  function ApprovalFor(st: FlockState, from: string, to: string, member: string, context: FileRef): ApprovalNode
    requires from in st.sessions.sessions
  {
    ApprovalNode(
      HandoffApproval(
        st.board.flock, member, from, to, LastWord(st.board, from, st.sessions.sessions[from].start), Some(context)),
      {})
  }

  lemma ActiveHolds(st: FlockState, g: Genesis, s: string)
    requires Sound(st, g) && s in st.sessions.sessions && st.sessions.sessions[s].status == Active
    ensures Get(st.sessions.holders, st.sessions.sessions[s].member) == Some(s)
    ensures st.chain.user == g.serverCert.issuer.user
  {
    hide VerifyAt, BoardInv, ResumesKept, ServerKeyed, HolderOk, StartOk, InviteOk, Consistent;
    assert RoleOk(st.sessions, s);
  }

  lemma DeviceApproves(cfg: Config, st: FlockState, m: Member, op: Member, device: Cert, approval: Id)
    requires Sound(st, cfg.genesis) && st.board.members == [m, op] && m.role == Shepherd && op.role == Operator
    requires device.key in op.devices && device.issuer == User(st.chain.user) && VerifyAt(device, st.chain.epoch)
    ensures OnRoster(st.board.members, m.name) && Find(st.board.members, m.name) == Some(m)
    ensures Approves(st.sessions, m, st.board, approval, AgentKey(device).Assert(approval), st.chain, st.chain.epoch)
  {
    hide Sound, VerifyAt;
    assert st.board.members[0] == m && st.board.members[1] == op;
  }

  /** The hand-off its member's authority approved passes. */
  lemma ApprovedPasses(cfg: Config, st: FlockState, from: string, to: string, m: Member, op: Member, device: Cert, context: FileRef)
    requires Sound(st, cfg.genesis) && cfg.key.cert == cfg.genesis.serverCert && TwoSessions(st, from, to, m, op)
    requires device.key in op.devices && device.issuer == cfg.genesis.serverCert.issuer && device.issuer.User?
    requires VerifyAt(device, st.chain.epoch)
    ensures
      var approval := ApprovalFor(st, from, to, m.name, context);
      var sig := AgentKey(device).Assert(ApprovalId(approval));
      && SpecsOf(st, HandOff(approval, sig)).Ok? && |SpecsOf(st, HandOff(approval, sig)).value| == 2
      && var spec := SpecsOf(st, HandOff(approval, sig)).value[0];
      CheckHandoff(st.sessions, st.board, ServerEvent(st, cfg.key, spec.kind, spec.refs, spec.body).0.payload, st.chain.epoch, st.chain).Ok?
  {
    hide Sound, VerifyAt, LastWord, Approves, OnRoster, Find, CheckHandoff;
    var approval := ApprovalFor(st, from, to, m.name, context);
    var sig := AgentKey(device).Assert(ApprovalId(approval));
    var spec := SpecsOf(st, HandOff(approval, sig)).value[0];
    ActiveHolds(st, cfg.genesis, from);
    DeviceApproves(cfg, st, m, op, device, ApprovalId(approval));
    HandoffIsTheDesigns(st.sessions, st.board, ServerEvent(st, cfg.key, spec.kind, spec.refs, spec.body).0.payload, st.chain.epoch, st.chain);
  }

  /** A frame that begins with a hand-off the server authored. */
  ghost predicate HandsOff(f: Frame, author: Key, from: string) {
    |f| > 0 && f[0].event.payload.author == author && f[0].event.payload.body.HandoffBody? && f[0].event.payload.body.from == from
  }

  lemma FirstOfTwo(cfg: Config, st: FlockState, a: Spec, b: Spec)
    requires Built(cfg, st, [a, b]).Ok?
    ensures
      var f := Built(cfg, st, [a, b]).value.0;
      |f| > 0 && f[0].event.payload.author == cfg.key.cert.key && f[0].event.payload.body == a.body
  {
    hide Prepare, Taken;
    BuiltSplits(cfg, st, a, b);
    assert [a][..0] == [];
    assert Built(cfg, st, [a][..0]) == Ok(([], st));
    var (node, sig) := ServerEvent(st, cfg.key, a.kind, a.refs, a.body);
    SealedEvent(st, cfg.key, node, sig);
  }

  lemma HandsOn(cfg: Config, frames: seq<Frame>, st: FlockState, from: string, to: string, m: Member, op: Member, device: Cert, context: FileRef)
    requires GenesisOk(cfg.genesis) && cfg.key.cert == cfg.genesis.serverCert && cfg.genesis.serverCert.meta.caveats == TOP
    requires Leads(cfg, frames, st) && TwoSessions(st, from, to, m, op)
    requires device.key in op.devices && device.issuer == cfg.genesis.serverCert.issuer && VerifyAt(device, st.chain.epoch)
    ensures exists f, next :: Leads(cfg, frames + [f], next) && HandsOff(f, cfg.key.cert.key, from)
  {
    hide Leads, Sound, ServerDated, VerifyAt, Built, CheckHandoff, TwoSessions, Rebuilt, RosterWellFormed;
    LeadsTo(cfg, frames, st);
    assert from in st.sessions.sessions && to in st.sessions.sessions by { BothThere(st, from, to, m, op); }
    var approval := ApprovalFor(st, from, to, m.name, context);
    var sig := AgentKey(device).Assert(ApprovalId(approval));
    ApprovedPasses(cfg, st, from, to, m, op, device, context);
    HandoffCommits(cfg, st, approval, sig);
    AlwaysCovered(cfg.genesis, st.chain.epoch + 1);
    var specs := SpecsOf(st, HandOff(approval, sig)).value;
    var (f, next) := Built(cfg, st, specs).value;
    CallLeads(cfg, frames, st, HandOff(approval, sig));
    assert specs == [specs[0], specs[1]];
    FirstOfTwo(cfg, st, specs[0], specs[1]);
    assert Leads(cfg, frames + [f], next) && HandsOff(f, cfg.key.cert.key, from);
  }

  lemma BothThere(st: FlockState, from: string, to: string, m: Member, op: Member)
    requires TwoSessions(st, from, to, m, op)
    ensures from in st.sessions.sessions && to in st.sessions.sessions
  {
  }

  // ------------------------------------------------------------------ its last word

  /** A log that plays, and a hand-off in it that no longer resumes from the old session's
      last word. */
  ghost predicate Displaced(g: Genesis, log: seq<Sealed>, i: nat) {
    && Played(g, log).Ok?
    && var st := Played(g, log).value;
    && Consistent(st.board)
    && var h := Hist(st.board);
    i < |h| && h[i].event.body.HandoffBody? && !ResumeOk(st.board, h, st.sessions, i)
  }

  lemma OwnHandoffDisplaces(cfg: Config, frames: seq<Frame>, f: Frame, st: FlockState)
    requires GenesisOk(cfg.genesis) && Leads(cfg, frames + [f], st) && HandsOff(f, cfg.key.cert.key, cfg.key.cert.key)
    ensures Displaced(cfg.genesis, Flat(frames + [f]), |Flat(frames)|)
  {
    hide Rebuilt, Played, Sound, ServerDated, GenesisOk, ResumeOk, Inv;
    var g, log, i := cfg.genesis, Flat(frames + [f]), |Flat(frames)|;
    RebuildIsPlay(g, frames + [f]);
    assert (frames + [f])[..|frames|] == frames;
    assert log == Flat(frames) + f && log[i] == f[0];
    EveryLogKeepsLaws(g, log);
    ResumeHoldsExactly(g, log, i);
    var h := Hist(Played(g, log).value.board);
    assert h[i].event == f[0].event.payload;
    assert !SilentFrom(h, i, h[i].event.body.from);
  }

  /**
   That happens. In every flock of a shepherd and an operator with a device: a first session
   of the shepherd is enrolled under the server's own key, a second waits; the device
   approves the hand-off from the one to the other, at the first one's last word, and the
   server commits it. Being the server's event, the hand-off is itself a later word of the
   key it retires.
   */
  lemma OwnKeyIsDisplaced(
    cfg: Config, m: Member, op: Member, device: Cert, context: FileRef, verifier: Id, c: Challenge, proof: Sig,
    verifier': Id, c': Challenge, proof': Sig)
    requires GenesisOk(cfg.genesis) && cfg.key.cert == cfg.genesis.serverCert && cfg.genesis.serverCert.meta.caveats == TOP
    requires cfg.genesis.roster == [m, op] && m.role == Shepherd && op.role == Operator
    requires device.key in op.devices && device.issuer == cfg.genesis.serverCert.issuer && VerifyAt(device, 0)
    requires verifier != verifier' && c.issuer == c'.issuer == cfg.key.cert.key
    requires c.subject == cfg.key.cert.key && SigOk(proof, c.subject, c.Message())
    requires c'.subject != cfg.key.cert.key && SigOk(proof', c'.subject, c'.Message())
    ensures exists log, i :: Displaced(cfg.genesis, log, i)
  {
    hide Leads, Rebuilt, GenesisOk, VerifyAt, Displaced, Flat, HandsOff, TwoSessions;
    BothJoin(cfg, m, op, verifier, c, proof, verifier', c', proof');
    var frames, st :| Leads(cfg, frames, st) && TwoSessions(st, c.subject, c'.subject, m, op) && st.chain.epoch == 0;
    HandsOn(cfg, frames, st, c.subject, c'.subject, m, op, device, context);
    var f, next :| Leads(cfg, frames + [f], next) && HandsOff(f, cfg.key.cert.key, c.subject);
    OwnHandoffDisplaces(cfg, frames, f, next);
  }

  /** From genesis: two sessions of the shepherd, the first active, the second waiting. */
  lemma BothJoin(
    cfg: Config, m: Member, op: Member, verifier: Id, c: Challenge, proof: Sig, verifier': Id, c': Challenge, proof': Sig)
    requires GenesisOk(cfg.genesis) && cfg.key.cert == cfg.genesis.serverCert && cfg.genesis.serverCert.meta.caveats == TOP
    requires cfg.genesis.roster == [m, op] && m.role == Shepherd && op.role == Operator
    requires verifier != verifier' && c.issuer == c'.issuer == cfg.key.cert.key && c.subject != c'.subject
    requires SigOk(proof, c.subject, c.Message()) && SigOk(proof', c'.subject, c'.Message())
    ensures exists frames, st :: Leads(cfg, frames, st) && TwoSessions(st, c.subject, c'.subject, m, op) && st.chain.epoch == 0
  {
    hide Leads, Rebuilt, GenesisOk, VerifyAt, RosterWellFormed, Joined, OnRoster, TwoSessions, Start;
    NothingLeads(cfg);
    var st0 := Start(cfg.genesis).value;
    AtFirst(cfg.genesis, m, op);
    Joins(cfg, [], st0, m.name, verifier, c, proof);
    var f1, f2, st2 :| Leads(cfg, [] + [f1] + [f2], st2) && Joined(st0, st2, m.name, c.subject, verifier);
    AfterOne(st0, st2, m, op, c.subject, verifier, c'.subject, verifier');
    Joins(cfg, [] + [f1] + [f2], st2, m.name, verifier', c', proof');
    var f3, f4, st4 :| Leads(cfg, [] + [f1] + [f2] + [f3] + [f4], st4) && Joined(st2, st4, m.name, c'.subject, verifier');
    AfterTwo(st0, st2, st4, m, op, c.subject, verifier, c'.subject, verifier');
  }

  /** Nobody has joined. */
  ghost predicate Empty(st: FlockState, m: Member, op: Member) {
    st.board.members == [m, op] && st.sessions == EMPTY && st.chain.epoch == 0
  }

  lemma AtFirst(g: Genesis, m: Member, op: Member)
    requires g.roster == [m, op] && Start(g).Ok?
    ensures Empty(Start(g).value, m, op) && OnRoster(Start(g).value.board.members, m.name)
  {
    assert Start(g).value.board.members[0].name == m.name;
  }

  lemma AfterOne(st: FlockState, next: FlockState, m: Member, op: Member, session: string, verifier: Id, other: string, verifier': Id)
    requires Empty(st, m, op) && Joined(st, next, m.name, session, verifier) && other != session && verifier != verifier'
    ensures OnRoster(next.board.members, m.name) && verifier' !in next.sessions.verifiers && other !in next.sessions.sessions
  {
    assert next.board.members[0].name == m.name;
    assert other in next.sessions.sessions ==> other in next.sessions.sessions - {session};
  }

  lemma AfterTwo(
    st: FlockState, mid: FlockState, next: FlockState, m: Member, op: Member, from: string, verifier: Id, to: string, verifier': Id)
    requires Empty(st, m, op) && m.role == Shepherd && op.role == Operator && from != to
    requires Joined(st, mid, m.name, from, verifier) && Joined(mid, next, m.name, to, verifier')
    ensures TwoSessions(next, from, to, m, op) && next.chain.epoch == 0
  {
    assert from in next.sessions.sessions - {to};
  }
}

/** Replacing the roster, and a session the server lets watch but whose stream it cuts short. */
module EarlyClose {
  import opened Results
  import opened Schema
  import opened BoardModel
  import opened Admission
  import opened BoardLaws
  import opened ChainModel
  import opened SessionModel
  import opened StateModel
  import opened Steps
  import opened FlockLaws
  import opened FrameLaws
  import opened ServerModel
  import opened LiveReplay
  import opened ServerRuns
  import opened CrashLaws
  import opened JournalModel
  import opened FollowModel
  import opened Progress
  import opened EntryModel
  import opened StreamModel
  import opened DesignTable

  // ------------------------------------------------------------------ rosters commit

  function RosterSpec(st: FlockState, members: seq<Member>): Spec {
    Spec(Kind.Roster, map[Replaces := st.board.rosterId], RosterBody(members, st.board.roots))
  }

  lemma RosterPrepares(cfg: Config, st: FlockState, members: seq<Member>)
    requires Sound(st, cfg.genesis) && ServerDated(st) && cfg.key.cert == cfg.genesis.serverCert
    ensures
      var spec := RosterSpec(st, members);
      var (node, sig) := ServerEvent(st, cfg.key, spec.kind, spec.refs, spec.body);
      Prepare(st, cfg.key, node, sig).Ok? <==> RosterWellFormed(members)
  {
    hide VerifyAt, Resolve, FirstLink, Sound, ServerDated, AdmitVerdict, Seal, RosterWellFormed, RootsWellFormed;
    var spec := RosterSpec(st, members);
    var (node, sig) := ServerEvent(st, cfg.key, spec.kind, spec.refs, spec.body);
    var server := Signer(st.chain.serverPub, Server);
    SoundNames(st, cfg.genesis);
    FreshId(st, cfg.genesis, node);
    ServerResolves(st, cfg.genesis, cfg.key, EventId(node), st.chain.epoch);
    ServerLinks(st, cfg.genesis, node.payload);
    AdmissionIsTheTable(st.board, node, server);
    RootsStayFormed(st, cfg.genesis);
    assert Admitted(st.board, node, server) <==> RosterWellFormed(members);
  }

  lemma RootsStayFormed(st: FlockState, g: Genesis)
    requires Sound(st, g)
    ensures RootsWellFormed(st.board.roots) && RosterWellFormed(st.board.members)
  {
    hide RootsWellFormed, RosterWellFormed;
  }

  /** A roster as one event. */
  lemma OneRoster(cfg: Config, st: FlockState, members: seq<Member>)
    requires Sound(st, cfg.genesis) && ServerDated(st) && cfg.key.cert == cfg.genesis.serverCert
    ensures
      var built := Built(cfg, st, [RosterSpec(st, members)]);
      && (built.Ok? <==> RosterWellFormed(members))
      && (built.Ok? ==>
            && Sound(built.value.1, cfg.genesis) && ServerDated(built.value.1)
            && built.value.1.board.members == members && built.value.1.sessions == st.sessions
            && built.value.1.chain.epoch == st.chain.epoch)
  {
    hide Sound, ServerDated, Prepare, Taken, Replayed, RosterWellFormed;
    var spec := RosterSpec(st, members);
    assert [spec][..0] == [];
    assert Built(cfg, st, [spec][..0]) == Ok(([], st));
    RosterPrepares(cfg, st, members);
    if Built(cfg, st, [spec]).Ok? {
      OneEventLeaves(cfg, st, spec);
      BuiltDated(cfg, st, [spec]);
      BuiltLast(cfg, st, [spec]);
      RosterTakes(st, cfg.genesis, Built(cfg, st, [spec]).value.0[0]);
    }
  }

  lemma SoundCerts(st: FlockState, g: Genesis)
    requires Sound(st, g)
    ensures CertsNamed(st.sessions)
  {
    hide BoardInv, ResumesKept, ServerKeyed, VerifyAt;
  }

  /** Nothing but a roster changes the roster. */
  lemma RosterKept(cfg: Config, st: FlockState, spec: Spec)
    requires Sound(st, cfg.genesis) && cfg.key.cert == cfg.genesis.serverCert && Built(cfg, st, [spec]).Ok? && !spec.kind.Roster?
    ensures Built(cfg, st, [spec]).value.1.board.members == st.board.members
  {
    hide Sound, Prepare, Taken, Replayed, Passes, KindOf;
    assert [spec][..0] == [];
    assert Built(cfg, st, [spec][..0]) == Ok(([], st));
    BuiltLast(cfg, st, [spec]);
    var f := Built(cfg, st, [spec]).value.0;
    SoundCerts(st, cfg.genesis);
    ReplayPasses(st, f[0]);
    EntryIsItsOwn(st, f[0]);
    RosterStays(st, IntakeOf(st, f[0]));
  }

  lemma EntryIsItsOwn(st: FlockState, s: Sealed)
    requires Replayed(st, s).Ok?
    ensures IntakeOf(st, s).Ev() == s.event.payload
  {
    hide Replayed, CitedCert;
  }

  /**
   Replacing the roster commits exactly when the new one is well formed and, if it drops
   anyone, the genesis certificate covers the next epoch. It is then the roster; no session
   has changed; and the epoch has moved, in the same frame, exactly if somebody was dropped.
   */
  lemma RosterCommits(cfg: Config, st: FlockState, members: seq<Member>)
    requires Sound(st, cfg.genesis) && ServerDated(st) && cfg.key.cert == cfg.genesis.serverCert
    ensures
      var built := Built(cfg, st, SpecsOf(st, ReplaceRoster(members)).value);
      var drops := DropsMember(st.board.members, members);
      && (built.Ok? <==> RosterWellFormed(members) && (drops ==> VerifyAt(cfg.genesis.serverCert, st.chain.epoch + 1)))
      && (built.Ok? ==>
            var next := built.value.1;
            && next.board.members == members && next.sessions == st.sessions
            && next.chain.epoch == st.chain.epoch + (if drops then 1 else 0)
            && (HasBump(built.value.0) <==> drops))
  {
    hide Sound, ServerDated, VerifyAt, Built, RosterWellFormed, DropsMember;
    var spec := RosterSpec(st, members);
    OneRoster(cfg, st, members);
    if Built(cfg, st, [spec]).Ok? {
      OneEventLeaves(cfg, st, spec);
    }
    if DropsMember(st.board.members, members) {
      BuiltSplits(cfg, st, spec, BumpSpec(st));
      if Built(cfg, st, [spec]).Ok? {
        var (f, mid) := Built(cfg, st, [spec]).value;
        BumpAfter(cfg, mid, BumpSpec(st));
        if Built(cfg, mid, [BumpSpec(mid)]).Ok? {
          RosterKept(cfg, mid, BumpSpec(mid));
          OneEventLeaves(cfg, mid, BumpSpec(mid));
          assert (f + Built(cfg, mid, [BumpSpec(mid)]).value.0)[1].event.payload.kind.Epoch?;
        }
      }
    }
  }

  // ------------------------------------------------------------------ one call after another

  /** These frames rebuild to this state, of an honest server's log. */
  ghost predicate Leads(cfg: Config, frames: seq<Frame>, st: FlockState) {
    Rebuilt(cfg.genesis, frames) == Ok(st) && Sound(st, cfg.genesis) && ServerDated(st)
  }

  lemma CallLeads(cfg: Config, frames: seq<Frame>, st: FlockState, call: Call)
    requires Leads(cfg, frames, st) && cfg.key.cert == cfg.genesis.serverCert
    requires SpecsOf(st, call).Ok? && Built(cfg, st, SpecsOf(st, call).value).Ok?
    ensures var (f, next) := Built(cfg, st, SpecsOf(st, call).value).value; Leads(cfg, frames + [f], next)
  {
    hide Sound, ServerDated, Built, FrameTaken, Rebuilt, SpecsOf;
    BuiltReplays(cfg, st, call);
    BuiltDated(cfg, st, SpecsOf(st, call).value);
    RebuiltMore(cfg.genesis, frames, Built(cfg, st, SpecsOf(st, call).value).value.0);
  }

  /** A frame that replaces the roster, and nothing else but the epoch. */
  ghost predicate Replaced(st: FlockState, f: Frame, next: FlockState, members: seq<Member>) {
    && next.board.members == members && next.sessions == st.sessions
    && next.chain.epoch == st.chain.epoch + (if DropsMember(st.board.members, members) then 1 else 0)
    && (HasBump(f) <==> DropsMember(st.board.members, members))
  }

  lemma RosterLeads(cfg: Config, frames: seq<Frame>, st: FlockState, members: seq<Member>)
    requires GenesisOk(cfg.genesis) && cfg.key.cert == cfg.genesis.serverCert && cfg.genesis.serverCert.meta.caveats == TOP
    requires Leads(cfg, frames, st) && RosterWellFormed(members)
    ensures exists f, next :: Leads(cfg, frames + [f], next) && Replaced(st, f, next, members)
  {
    hide Leads, Sound, ServerDated, VerifyAt, Built, RosterWellFormed, DropsMember, HasBump, GenesisOk, Rebuilt, SpecsOf;
    LeadsTo(cfg, frames, st);
    RosterHasSpecs(st, members);
    RosterCommits(cfg, st, members);
    AlwaysCovered(cfg.genesis, st.chain.epoch + 1);
    var (f, next) := Built(cfg, st, SpecsOf(st, ReplaceRoster(members)).value).value;
    CallLeads(cfg, frames, st, ReplaceRoster(members));
    assert Leads(cfg, frames + [f], next) && Replaced(st, f, next, members);
  }

  lemma RosterHasSpecs(st: FlockState, members: seq<Member>)
    ensures SpecsOf(st, ReplaceRoster(members)).Ok?
  {
    hide DropsMember;
  }

  lemma NothingLeads(cfg: Config)
    requires GenesisOk(cfg.genesis)
    ensures Start(cfg.genesis).Ok? && Leads(cfg, [], Start(cfg.genesis).value)
  {
    hide Sound, RosterWellFormed, VerifyAt;
    SoundRebuilt(cfg.genesis, []);
  }

  // ------------------------------------------------------------------ a stream cut short

  /** A session that is live, and active, for a member who is not on the roster. */
  ghost predicate Away(st: FlockState, session: string, m: Member, other: Member) {
    && st.board.members == [other] && m.name != other.name
    && session in st.sessions.sessions
    && st.sessions.sessions[session].member == m.name && st.sessions.sessions[session].status == Active
    && st.sessions.sessions[session].epoch == st.chain.epoch
  }

  lemma SmallRosters(m: Member, other: Member)
    requires RosterWellFormed([m, other])
    ensures m.name != other.name && RosterWellFormed([m]) && RosterWellFormed([other]) && RosterWellFormed([])
    ensures DropsMember([m, other], [other]) && DropsMember([other], []) && !DropsMember([], [m])
    ensures OnRoster([m, other], m.name) && OnRoster([m], m.name) && !OnRoster([], m.name)
  {
    var ms := [m, other];
    assert ms[..1] == [m] && [m][..0] == [] && [other][..0] == [];
    assert ms[0].name != ms[1].name;
    assert Delegates(ms) == Delegates([m]) + if other.delegate then 1 else 0;
    assert !OnRoster([other], ms[0].name);
    assert !OnRoster([], [other][0].name);
    assert ms[0].name == m.name && [m][0].name == m.name;
  }

  /** A member is invited and taken off the roster; the session starts all the same. */
  lemma StartsAway(cfg: Config, m: Member, other: Member, verifier: Id, c: Challenge, proof: Sig)
    requires GenesisOk(cfg.genesis) && cfg.key.cert == cfg.genesis.serverCert && cfg.genesis.serverCert.meta.caveats == TOP
    requires cfg.genesis.roster == [m, other]
    requires c.issuer == cfg.key.cert.key && SigOk(proof, c.subject, c.Message())
    ensures exists frames, st :: |frames| == 3 && Leads(cfg, frames, st) && Away(st, c.subject, m, other)
  {
    hide Leads, Sound, ServerDated, VerifyAt, Built, OnRoster, Certified, RosterWellFormed, DropsMember, HasBump, GenesisOk, Rebuilt;
    SmallRosters(m, other) by { GenesisRoster(cfg.genesis); }
    NothingLeads(cfg);
    var st0 := Start(cfg.genesis).value;
    LeadsTo(cfg, [], st0);
    InvitationCommits(cfg, st0, m.name, verifier);
    var (f1, st1) := Built(cfg, st0, SpecsOf(st0, Call.Invite(m.name, verifier)).value).value;
    CallLeads(cfg, [], st0, Call.Invite(m.name, verifier));
    LeadsTo(cfg, [] + [f1], st1);
    InvitingKeepsSeen(cfg, st0, m.name, verifier);
    RosterKept(cfg, st0, Spec(Kind.Invite, map[], InviteBody(m.name, verifier)));
    RosterLeads(cfg, [] + [f1], st1, [other]);
    var f2, st2 :| Leads(cfg, [] + [f1] + [f2], st2) && Replaced(st1, f2, st2, [other]);
    EnrollsAway(cfg, [] + [f1] + [f2], st2, m, other, st1.sessions.verifiers[verifier], c, proof);
  }

  lemma EnrollsAway(
    cfg: Config, frames: seq<Frame>, st: FlockState, m: Member, other: Member, invite: Id, c: Challenge, proof: Sig)
    requires Leads(cfg, frames, st) && |frames| == 2 && cfg.key.cert == cfg.genesis.serverCert
    requires cfg.genesis.serverCert.meta.caveats == TOP && st.board.members == [other] && m.name != other.name
    requires invite in st.sessions.invites && st.sessions.invites[invite] == InviteRow(m.name, false)
    requires m.name !in st.sessions.seen && c.subject !in st.sessions.sessions
    requires c.issuer == cfg.key.cert.key && SigOk(proof, c.subject, c.Message())
    ensures exists frames, st :: |frames| == 3 && Leads(cfg, frames, st) && Away(st, c.subject, m, other)
  {
    hide Leads, Sound, ServerDated, VerifyAt, Built, Certified;
    LeadsTo(cfg, frames, st);
    TopCertifies(cfg, c, proof, m.name, st.chain.epoch);
    var cert := Certified(cfg.key, c, proof, m.name, st.chain.epoch).value;
    EnrollmentCommits(cfg, st, c, proof, invite, m.name);
    var (f, next) := Built(cfg, st, SpecsOf(st, Enroll(invite, m.name, cert)).value).value;
    CallLeads(cfg, frames, st, Enroll(invite, m.name, cert));
    RosterKept(cfg, st, Spec(Kind.SessionStart, map[InviteRef := invite], SessionStartBody(m.name, cert.key, cert)));
    assert |frames + [f]| == 3 && Away(next, c.subject, m, other);
  }

  lemma GenesisRoster(g: Genesis)
    requires GenesisOk(g)
    ensures RosterWellFormed(g.roster)
  {
  }

  lemma AlwaysCovered(g: Genesis, epoch: nat)
    requires GenesisOk(g) && g.serverCert.meta.caveats == TOP
    ensures VerifyAt(g.serverCert, epoch)
  {
    UnboundedHolds(g, epoch);
  }

  lemma LeadsTo(cfg: Config, frames: seq<Frame>, st: FlockState)
    requires Leads(cfg, frames, st)
    ensures Sound(st, cfg.genesis) && ServerDated(st) && Rebuilt(cfg.genesis, frames) == Ok(st)
  {
  }

  /** The server lets this session open a stream on this log, from its start, and yet closes
      it before the end. */
  ghost predicate CutShort(g: Genesis, frames: seq<Frame>, session: string, proof: Assertion, challenge: Id) {
    && Rebuilt(g, frames).Ok?
    && var st := Rebuilt(g, frames).value;
    && AuthorizeStream(st, proof, challenge) == Ok(session) && session in Eligible(st)
    && |Republished(g, frames)| == |frames|
    && |Sent(Republished(g, frames), session, StartIndex(st, session))| < |frames|
  }

  /** What the session meets next: everybody dropped, itself put back, its renewal. */
  ghost predicate Returns(cfg: Config, frames: seq<Frame>, more: seq<Frame>, session: string, m: Member, cert: Cert) {
    && |more| == 3 && Rebuilt(cfg.genesis, frames + more).Ok?
    && Rebuilt(cfg.genesis, frames + more[..1]).Ok? && Rebuilt(cfg.genesis, frames + more[..2]).Ok?
    && HasBump(more[0]) && session !in Eligible(Rebuilt(cfg.genesis, frames + more[..1]).value)
    && Renewed(cfg, Rebuilt(cfg.genesis, frames + more).value, session, m, cert)
  }

  /** A session that is active for the one member there is, with a certificate of this epoch. */
  ghost predicate Renewed(cfg: Config, st: FlockState, session: string, m: Member, cert: Cert) {
    && st.board.members == [m] && session in st.sessions.sessions
    && st.sessions.sessions[session].member == m.name && st.sessions.sessions[session].status == Active
    && CertId(cert) in st.sessions.sessions[session].certs
    && CertOk(cert, session, st.chain.epoch, st.chain.serverPub).Ok?
    && cert.issuer == Agent(cfg.key.cert.key, cfg.key.cert)
  }

  lemma ComesBack(cfg: Config, frames: seq<Frame>, st: FlockState, m: Member, other: Member, c: Challenge, proof: Sig)
    requires GenesisOk(cfg.genesis) && cfg.key.cert == cfg.genesis.serverCert && cfg.genesis.serverCert.meta.caveats == TOP
    requires Leads(cfg, frames, st) && RosterWellFormed([m, other]) && Away(st, c.subject, m, other)
    requires c.issuer == cfg.key.cert.key && SigOk(proof, c.subject, c.Message())
    ensures exists more, cert :: Returns(cfg, frames, more, c.subject, m, cert)
  {
    hide Leads, Sound, ServerDated, OnRoster, RosterWellFormed, DropsMember, HasBump, GenesisOk, Renewed, Rebuilt, Eligible,
         VerifyAt, CertOk;
    SmallRosters(m, other);
    RosterLeads(cfg, frames, st, []);
    var f4, st4 :| Leads(cfg, frames + [f4], st4) && Replaced(st, f4, st4, []);
    LeadsTo(cfg, frames + [f4], st4);
    RosterLeads(cfg, frames + [f4], st4, [m]);
    var f5, st5 :| Leads(cfg, frames + [f4] + [f5], st5) && Replaced(st4, f5, st5, [m]);
    LeadsTo(cfg, frames + [f4] + [f5], st5);
    Renews(cfg, frames + [f4] + [f5], st5, m, c, proof);
    var f6, st6, cert :| Leads(cfg, frames + [f4] + [f5] + [f6], st6) && Renewed(cfg, st6, c.subject, m, cert);
    LeadsTo(cfg, frames + [f4] + [f5] + [f6], st6);
    var more := [f4, f5, f6];
    assert frames + more[..1] == frames + [f4] && frames + more[..2] == frames + [f4] + [f5];
    assert frames + more == frames + [f4] + [f5] + [f6];
    NotEligible(st4, c.subject);
    assert Returns(cfg, frames, more, c.subject, m, cert);
  }

  lemma Renews(cfg: Config, frames: seq<Frame>, st: FlockState, m: Member, c: Challenge, proof: Sig)
    requires cfg.key.cert == cfg.genesis.serverCert && cfg.genesis.serverCert.meta.caveats == TOP
    requires Leads(cfg, frames, st) && st.board.members == [m] && c.subject in st.sessions.sessions
    requires st.sessions.sessions[c.subject].member == m.name && st.sessions.sessions[c.subject].status == Active
    requires st.sessions.sessions[c.subject].epoch < st.chain.epoch
    requires c.issuer == cfg.key.cert.key && SigOk(proof, c.subject, c.Message())
    ensures exists f, next, cert :: Leads(cfg, frames + [f], next) && Renewed(cfg, next, c.subject, m, cert)
  {
    hide Leads, Sound, ServerDated, VerifyAt, Built, Certified, CertOk;
    LeadsTo(cfg, frames, st);
    TopCertifies(cfg, c, proof, m.name, st.chain.epoch);
    var cert := Certified(cfg.key, c, proof, m.name, st.chain.epoch).value;
    RenewalCommits(cfg, st, c, proof, c.subject);
    var (f, next) := Built(cfg, st, SpecsOf(st, Renew(c.subject, cert)).value).value;
    CallLeads(cfg, frames, st, Renew(c.subject, cert));
    RenewalLeaves(cfg, st, c, proof, m);
    MintedBy(cfg, c, proof, m.name, st.chain.epoch);
    assert Leads(cfg, frames + [f], next) && Renewed(cfg, next, c.subject, m, cert);
  }

  lemma NotEligible(st: FlockState, session: string)
    requires st.board.members == []
    ensures session !in Eligible(st)
  {
    hide Live;
  }

  lemma MintedBy(cfg: Config, c: Challenge, proof: Sig, member: string, epoch: nat)
    requires Certified(cfg.key, c, proof, member, epoch).Ok?
    ensures Certified(cfg.key, c, proof, member, epoch).value.issuer == Agent(cfg.key.cert.key, cfg.key.cert)
  {
  }

  /** After a renewal: the roster, the epoch and the server are as they were, and the new
      certificate holds. */
  lemma RenewalLeaves(cfg: Config, st: FlockState, c: Challenge, proof: Sig, m: Member)
    requires Sound(st, cfg.genesis) && ServerDated(st) && cfg.key.cert == cfg.genesis.serverCert && Live(st.sessions, c.subject)
    requires st.sessions.sessions[c.subject].member == m.name
    requires Certified(cfg.key, c, proof, m.name, st.chain.epoch).Ok?
    requires Built(cfg, st, SpecsOf(st, Renew(c.subject, Certified(cfg.key, c, proof, m.name, st.chain.epoch).value)).value).Ok?
    ensures
      var cert := Certified(cfg.key, c, proof, m.name, st.chain.epoch).value;
      var next := Built(cfg, st, SpecsOf(st, Renew(c.subject, cert)).value).value.1;
      && next.board.members == st.board.members && next.chain.epoch == st.chain.epoch
      && CertOk(cert, c.subject, next.chain.epoch, next.chain.serverPub).Ok?
  {
    hide Sound, ServerDated, VerifyAt, Built, Certified, CertOk;
    var cert := Certified(cfg.key, c, proof, m.name, st.chain.epoch).value;
    var spec := Spec(Kind.Renewal, map[SessionRef := st.sessions.sessions[c.subject].start], RenewalBody(c.subject, st.chain.epoch, cert));
    RosterKept(cfg, st, spec);
    OneEventLeaves(cfg, st, spec);
    SoundNames(st, cfg.genesis);
    SoundNames(Built(cfg, st, [spec]).value.1, cfg.genesis);
    MintedFits(cfg, st, c, proof, m.name, c.subject);
  }

  /** A frame that ends a stream, before the last, is where it stops. */
  lemma StopsThere(ps: seq<Published>, session: string, from: nat, i: nat)
    requires i < |ps| && StreamModel.Over(ps[i], session, from)
    ensures |Sent(ps, session, from)| <= i + 1
  {
    hide StreamModel.Over, Sent;
    var first := FirstOver(ps, session, from, 0, i + 1);
    SentFrom(ps, session, from, 0, first);
    assert ps[0..] == ps;
  }

  /** The bump that finds a started session off the roster ends its stream. */
  lemma OverThere(cfg: Config, frames: seq<Frame>, more: seq<Frame>, session: string, m: Member, cert: Cert)
    requires GenesisOk(cfg.genesis) && Returns(cfg, frames, more, session, m, cert)
    requires Rebuilt(cfg.genesis, frames).Ok? && session in Rebuilt(cfg.genesis, frames).value.sessions.sessions
    ensures
      var all := frames + more;
      && |Republished(cfg.genesis, all)| == |all|
      && StreamModel.Over(Republished(cfg.genesis, all)[|frames|], session, StartIndex(Rebuilt(cfg.genesis, all).value, session))
  {
    hide Rebuilt, Republished, GenesisOk, Eligible, StartIndex, Flat, Contiguous, LastIndex, HasBump, CertOk;
    var all, n := frames + more, |frames|;
    assert all[..n] == frames && all[..n + 1] == frames + more[..1] && all[n] == more[0];
    RepublishedAt(cfg.genesis, all, n);
    StartStays(cfg.genesis, all, n, session);
    RebuiltContiguous(cfg.genesis, all);
    FrameEnds(all, n);
  }

  /** The renewed session proves itself to the stream. */
  lemma LetIn(st: FlockState, session: string, m: Member, cert: Cert, challenge: Id)
    requires st.board.members == [m] && session in st.sessions.sessions && session != st.chain.serverPub
    requires st.sessions.sessions[session].member == m.name && st.sessions.sessions[session].status == Active
    requires CertId(cert) in st.sessions.sessions[session].certs && RootAgent(cert) == st.chain.serverPub
    requires CertOk(cert, session, st.chain.epoch, st.chain.serverPub).Ok?
    ensures AuthorizeStream(st, AgentKey(cert).Assert(challenge), challenge) == Ok(session) && session in Eligible(st)
  {
    hide VerifyAt;
    assert st.board.members[0].name == m.name;
  }

  /**
   The close may come too early. In a flock of two members: one is invited and dropped, and
   starts a session all the same; then the other is dropped too; then the first is put back
   and renews. The server now lets that session watch, from the start of the log, and closes
   its stream at the second drop, short of the end.
   */
  lemma EligibleStreamIsCutShort(
    cfg: Config, m: Member, other: Member, verifier: Id, c: Challenge, proof: Sig, c': Challenge, proof': Sig, challenge: Id)
    requires GenesisOk(cfg.genesis) && cfg.key.cert == cfg.genesis.serverCert && cfg.genesis.serverCert.meta.caveats == TOP
    requires cfg.genesis.roster == [m, other]
    requires c.issuer == cfg.key.cert.key && SigOk(proof, c.subject, c.Message()) && c.subject != cfg.key.cert.key
    requires c'.issuer == cfg.key.cert.key && SigOk(proof', c'.subject, c'.Message()) && c'.subject == c.subject
    ensures exists frames, cert :: CutShort(cfg.genesis, frames, c.subject, AgentKey(cert).Assert(challenge), challenge)
  {
    hide Leads, Rebuilt, CutShort, GenesisOk, Returns, Sound, ServerDated, RosterWellFormed;
    var session := c.subject;
    StartsAway(cfg, m, other, verifier, c, proof);
    var frames, st :| |frames| == 3 && Leads(cfg, frames, st) && Away(st, session, m, other);
    LeadsTo(cfg, frames, st);
    GenesisRoster(cfg.genesis);
    ComesBack(cfg, frames, st, m, other, c', proof');
    var more, cert :| Returns(cfg, frames, more, session, m, cert);
    EndsCutShort(cfg, frames, more, session, m, cert, challenge);
  }

  lemma EndsCutShort(cfg: Config, frames: seq<Frame>, more: seq<Frame>, session: string, m: Member, cert: Cert, challenge: Id)
    requires GenesisOk(cfg.genesis) && cfg.key.cert == cfg.genesis.serverCert && session != cfg.key.cert.key
    requires Returns(cfg, frames, more, session, m, cert)
    requires Rebuilt(cfg.genesis, frames).Ok? && session in Rebuilt(cfg.genesis, frames).value.sessions.sessions
    ensures CutShort(cfg.genesis, frames + more, session, AgentKey(cert).Assert(challenge), challenge)
  {
    hide Rebuilt, Republished, Eligible, StartIndex, Sent, StreamModel.Over, AuthorizeStream, CertOk, HasBump, GenesisOk, Sound, VerifyAt;
    var g, all := cfg.genesis, frames + more;
    OverThere(cfg, frames, more, session, m, cert);
    StopsThere(Republished(g, all), session, StartIndex(Rebuilt(g, all).value, session), |frames|);
    SoundRebuilt(g, all);
    SoundNames(Rebuilt(g, all).value, g);
    UserRoot(g);
    assert RootAgent(cert) == cfg.key.cert.key;
    LetIn(Rebuilt(g, all).value, session, m, cert, challenge);
  }

  lemma UserRoot(g: Genesis)
    requires GenesisOk(g)
    ensures RootAgent(g.serverCert) == g.serverCert.key
  {
  }
}

/** What the server can always do: its own events pass its own checks. */
module Progress {
  import opened Results
  import opened Schema
  import opened BoardModel
  import opened Admission
  import opened BoardFold
  import opened BoardLaws
  import opened ChainModel
  import opened SessionModel
  import opened StateModel
  import opened Steps
  import opened SessionLaws
  import opened Ratchet
  import opened WorkLines
  import opened FlockLaws
  import opened ServerModel
  import opened LiveReplay
  import opened Codec
  import opened LogModel
  import opened ServerRuns
  import opened CrashLaws

  // ------------------------------------------------------------------ server events are fresh

  /** A server event carries its own index as `at`. */
  ghost predicate Dated(st: FlockState, id: Id) {
    id in st.board.entries && st.board.entries[id].event.author == st.chain.serverPub ==>
      st.board.entries[id].event.at == st.board.entries[id].index
  }

  ghost predicate ServerDated(st: FlockState) {
    forall id {:trigger Dated(st, id)} :: Dated(st, id)
  }

  lemma FreshId(st: FlockState, g: Genesis, node: EventNode)
    requires Sound(st, g) && ServerDated(st)
    requires node.payload.author == st.chain.serverPub && node.payload.at == st.chain.nextIndex
    ensures EventId(node) !in st.board.entries
  {
    hide VerifyAt, RowsOk, InvitesSpentOnce, ApprovalsSpentOnce, CertsOk, LinesOk, ResumesKept, ServerKeyed, HeadsLatest,
         FirstCloserWins, TargetsFit, OneRosterLine, Locked, RosterWellFormed, RootsWellFormed;
    assert Filed(st.board, EventId(node)) && Dated(st, EventId(node));
  }

  // ------------------------------------------------------------------ the server's own events

  /** What the table asks of a server event, and nothing about its meaning. */
  lemma TableTakesServerEvent(b: BoardState, node: EventNode, signer: Signer)
    requires EventId(node) !in b.entries && node.payload.flock == b.flock && node.payload.author == signer.fingerprint
    requires node == NodeOf(node.payload) && KindOf(node.payload.body) == node.payload.kind && node.payload.files == []
    requires IsServerKind(node.payload.kind) && signer.class_.Server?
    requires forall r :: r in node.payload.refs ==> node.payload.refs[r] in b.entries
    ensures AdmitVerdict(b, node, signer) == Admit
  {
    hide CheckDevices, CheckRoots;
    var ev := node.payload;
    assert !ev.body.RosterBody?;
    assert CheckRefs(b, ev) == Ok(None);
    assert ApplyTable(b, ev, None, None) == Ok(None) by {
      hide CheckRefs;
    }
  }

  /** The server's key is no session's before that session wrote: its head is there. */
  lemma ServerLinks(st: FlockState, g: Genesis, ev: Event)
    requires Sound(st, g) && ev.author == st.chain.serverPub
    ensures FirstLink(st.sessions, st.board, ev).Ok?
  {
    hide VerifyAt, InvitesSpentOnce, ApprovalsSpentOnce, CertsOk, LinesOk, ResumesKept, ServerKeyed, Consistent,
         FirstCloserWins, TargetsFit, OneRosterLine, Locked, RosterWellFormed, RootsWellFormed, RoleOk, HolderOk, InviteOk;
    if ev.author in st.sessions.sessions {
      assert StartOk(st, ev.author);
      assert HeadCovers(st.board, st.sessions.sessions[ev.author].start);
    }
  }

  lemma ServerResolves(st: FlockState, g: Genesis, key: AgentKey, id: Id, epoch: nat)
    requires Sound(st, g) && key.cert == g.serverCert
    ensures Resolve(st.sessions, key.Assert(id), id, st.chain.serverPub, st.chain.user, epoch)
            == if VerifyAt(g.serverCert, epoch) then Ok(Signer(st.chain.serverPub, Server)) else Err(BadSignature)
  {
    hide VerifyAt, BoardInv, RowsOk, InvitesSpentOnce, ApprovalsSpentOnce, CertsOk, LinesOk, ResumesKept, ServerKeyed, Consistent;
    assert RootAgent(g.serverCert) == g.serverCert.key;
  }

  /** A bookkeeping event the server authors is sealed exactly when its session rule holds
      and the genesis certificate covers its epoch: nothing else stands in its way. */
  lemma ServerEventPrepares(cfg: Config, st: FlockState, spec: Spec)
    requires Sound(st, cfg.genesis) && ServerDated(st) && cfg.key.cert == cfg.genesis.serverCert
    requires IsServerKind(spec.kind) && KindOf(spec.body) == spec.kind
    requires forall r :: r in spec.refs ==> spec.refs[r] in st.board.entries
    ensures
      var (node, sig) := ServerEvent(st, cfg.key, spec.kind, spec.refs, spec.body);
      var epoch := EpochFor(st.chain, spec.kind);
      Prepare(st, cfg.key, node, sig).Ok? <==>
        VerifyAt(cfg.genesis.serverCert, epoch) && Check(st.sessions, st.board, node.payload, epoch, st.chain).Ok?
  {
    hide VerifyAt, Resolve, Check, FirstLink, Sound, ServerDated, Decide, KindOf;
    var (node, sig) := ServerEvent(st, cfg.key, spec.kind, spec.refs, spec.body);
    SoundNames(st, cfg.genesis);
    FreshId(st, cfg.genesis, node);
    TableTakesServerEvent(st.board, node, Signer(st.chain.serverPub, Server));
    ServerResolves(st, cfg.genesis, cfg.key, EventId(node), EpochFor(st.chain, spec.kind));
    ServerLinks(st, cfg.genesis, node.payload);
  }

  /** One such event as a transaction. */
  lemma OneServerEvent(cfg: Config, st: FlockState, spec: Spec)
    requires Sound(st, cfg.genesis) && ServerDated(st) && cfg.key.cert == cfg.genesis.serverCert
    requires IsServerKind(spec.kind) && KindOf(spec.body) == spec.kind
    requires forall r :: r in spec.refs ==> spec.refs[r] in st.board.entries
    ensures
      var node := ServerEvent(st, cfg.key, spec.kind, spec.refs, spec.body).0;
      var epoch := EpochFor(st.chain, spec.kind);
      Built(cfg, st, [spec]).Ok? <==>
        VerifyAt(cfg.genesis.serverCert, epoch) && Check(st.sessions, st.board, node.payload, epoch, st.chain).Ok?
    ensures Built(cfg, st, [spec]).Ok? ==> ServerDated(Built(cfg, st, [spec]).value.1)
  {
    hide VerifyAt, Check, Sound, Prepare, Taken, Replayed, KindOf, ServerDated;
    assert [spec][..0] == [];
    assert Built(cfg, st, [spec][..0]) == Ok(([], st));
    ServerEventPrepares(cfg, st, spec);
    if Built(cfg, st, [spec]).Ok? {
      var (node, sig) := ServerEvent(st, cfg.key, spec.kind, spec.refs, spec.body);
      PreparedReplays(st, cfg.genesis, cfg.key, node, sig);
      SealedEvent(st, cfg.key, node, sig);
      DatedStep(st, cfg.genesis, Prepare(st, cfg.key, node, sig).value.sealed);
    }
  }

  /** Dating is kept by every entry that is not the server's, and by every one that is and
      carries its index. */
  lemma DatedStep(st: FlockState, g: Genesis, s: Sealed)
    requires Sound(st, g) && ServerDated(st) && Replayed(st, s).Ok?
    requires s.event.payload.author == st.chain.serverPub ==> s.event.payload.at == s.record.payload.index
    ensures ServerDated(Replayed(st, s).value)
    ensures Replayed(st, s).value.chain.serverPub == st.chain.serverPub
  {
    hide Replayed, Inv, ServerKeyed, EntryOf;
    SoundReplay(st, g, s);
    SameServer(st, s);
    EntryEvent(st, IntakeOf(st, s));
    IndexIsNext(st, g, s);
    var st' := Replayed(st, s).value;
    forall id
      ensures Dated(st', id)
    {
      assert Dated(st, id);
    }
  }

  lemma SameServer(st: FlockState, s: Sealed)
    requires Replayed(st, s).Ok?
    ensures Replayed(st, s).value.chain.serverPub == st.chain.serverPub
  {
    hide VerifyRecord, CitedCert, Vet, Applied, Observed;
  }

  // ------------------------------------------------------------------ ending a session

  /** Transactions compose. */
  lemma BuiltSplits(cfg: Config, st: FlockState, a: Spec, b: Spec)
    ensures Built(cfg, st, [a, b]).Ok? <==> Built(cfg, st, [a]).Ok? && Built(cfg, Built(cfg, st, [a]).value.1, [b]).Ok?
    ensures Built(cfg, st, [a, b]).Ok? ==>
              var (f, mid) := Built(cfg, st, [a]).value;
              var (f', next) := Built(cfg, mid, [b]).value;
              Built(cfg, st, [a, b]).value == (f + f', next)
  {
    hide Prepare, Taken;
    assert [a, b][..1] == [a];
    assert [b][..0] == [];
    if Built(cfg, st, [a]).Ok? {
      var (f, mid) := Built(cfg, st, [a]).value;
      assert Built(cfg, mid, [b][..0]) == Ok(([], mid));
      if Built(cfg, mid, [b]).Ok? {
        assert Built(cfg, st, [a, b]).value.0 == f + Built(cfg, mid, [b]).value.0;
      }
    }
  }

  lemma ReplayObserves(st: FlockState, s: Sealed)
    requires Replayed(st, s).Ok?
    ensures
      var st' := Replayed(st, s).value;
      && st'.sessions == Observed(st.sessions, EventId(s.event), s.event.payload, s.record.payload.epoch)
      && st'.chain.epoch == s.record.payload.epoch == EpochFor(st.chain, s.event.payload.kind)
  {
    hide CitedCert, Vet, Applied, Observed, Vouches;
  }

  /** What a one-event transaction leaves. */
  lemma OneEventLeaves(cfg: Config, st: FlockState, spec: Spec)
    requires Sound(st, cfg.genesis) && cfg.key.cert == cfg.genesis.serverCert && Built(cfg, st, [spec]).Ok?
    ensures
      var (f, next) := Built(cfg, st, [spec]).value;
      && |f| == 1 && f[0].event.payload.kind == spec.kind && f[0].event.payload.body == spec.body
      && Sound(next, cfg.genesis)
      && next.chain.epoch == EpochFor(st.chain, spec.kind)
      && next.sessions == Observed(st.sessions, EventId(f[0].event), f[0].event.payload, next.chain.epoch)
  {
    hide Sound, Prepare, Taken, Replayed, KindOf, Observed;
    assert [spec][..0] == [];
    assert Built(cfg, st, [spec][..0]) == Ok(([], st));
    BuiltLast(cfg, st, [spec]);
    ReplayObserves(st, Built(cfg, st, [spec]).value.0[0]);
  }

  lemma EndChecks(st: FlockState, cfg: Config, session: string, reason: EndReason)
    requires Live(st.sessions, session)
    ensures
      var spec := Spec(Kind.SessionEnd, map[SessionRef := st.sessions.sessions[session].start], SessionEndBody(session, reason));
      var ev := ServerEvent(st, cfg.key, spec.kind, spec.refs, spec.body).0.payload;
      Check(st.sessions, st.board, ev, st.chain.epoch, st.chain).Ok?
  {
  }

  lemma BumpChecks(st: FlockState, cfg: Config, e: nat)
    ensures
      var ev := ServerEvent(st, cfg.key, Kind.Epoch, map[], EpochBody(e)).0.payload;
      Check(st.sessions, st.board, ev, st.chain.epoch + 1, st.chain).Ok? <==> e == st.chain.epoch + 1
  {
  }

  lemma StartOnBoard(st: FlockState, g: Genesis, session: string)
    requires Sound(st, g) && session in st.sessions.sessions
    ensures st.sessions.sessions[session].start in st.board.entries
  {
    hide VerifyAt, BoardInv, InvitesSpentOnce, ApprovalsSpentOnce, CertsOk, LinesOk, ResumesKept, ServerKeyed, Consistent,
         RoleOk, HolderOk, InviteOk;
    assert StartOk(st, session);
  }

  /** Ending any live session passes every check of the server's own, exactly when the
      genesis certificate covers the next epoch: a `session-end` and an `epoch`, after which
      that session is over, the epoch has moved, and no other session has changed. */
  lemma EndingBuilds(cfg: Config, st: FlockState, session: string, reason: EndReason)
    requires Sound(st, cfg.genesis) && ServerDated(st) && cfg.key.cert == cfg.genesis.serverCert && Live(st.sessions, session)
    ensures SpecsOf(st, EndSession(session, reason)).Ok?
    ensures
      var built := Built(cfg, st, SpecsOf(st, EndSession(session, reason)).value);
      && (built.Ok? <==> VerifyAt(cfg.genesis.serverCert, st.chain.epoch + 1))
      && (built.Ok? ==>
            var (f, next) := built.value;
            && |f| == 2 && f[0].event.payload.kind.SessionEnd? && f[1].event.payload.kind.Epoch?
            && next.chain.epoch == st.chain.epoch + 1
            && next.sessions == st.sessions.(sessions := WithStatus(st.sessions.sessions, session, Ended)))
  {
    hide VerifyAt, Check, Sound, Replayed, ServerDated, Built, ServerEvent;
    var end := Spec(Kind.SessionEnd, map[SessionRef := st.sessions.sessions[session].start], SessionEndBody(session, reason));
    assert SpecsOf(st, EndSession(session, reason)) == Ok([end, BumpSpec(st)]);
    StartOnBoard(st, cfg.genesis, session);
    EndChecks(st, cfg, session, reason);
    OneServerEvent(cfg, st, end);
    SoundNames(st, cfg.genesis);
    BuiltSplits(cfg, st, end, BumpSpec(st));
    OneEventLeaves(cfg, st, end);
    var (f, mid) := Built(cfg, st, [end]).value;
    BumpChecks(mid, cfg, st.chain.epoch + 1);
    OneServerEvent(cfg, mid, BumpSpec(st));
    if Built(cfg, mid, [BumpSpec(st)]).Ok? {
      OneEventLeaves(cfg, mid, BumpSpec(st));
    }
  }

  // ------------------------------------------------------------------ honest runs

  /** Only the server signs as the server, and only through its own calls: an event in its
      name that is handed in is one already admitted. */
  ghost predicate HonestRun(cfg: Config, w: World, l: Ledger, acts: seq<Act>) {
    |acts| > 0 ==>
      && HonestRun(cfg, w, l, acts[..|acts| - 1])
      && var w' := Walked(cfg, w, l, acts[..|acts| - 1]).0;
      var act := acts[|acts| - 1];
      w'.Up? && act.Admitting? && act.node.payload.author == cfg.genesis.serverCert.key ==>
        EventId(act.node) in w'.sv.st.board.entries
  }

  /** Everything told, and everything told with what is in flight, is dated. */
  ghost predicate LedgerDated(cfg: Config, l: Ledger) {
    && Rebuilt(cfg.genesis, l.frames).Ok? && ServerDated(Rebuilt(cfg.genesis, l.frames).value)
    && Rebuilt(cfg.genesis, l.frames + l.more).Ok? && ServerDated(Rebuilt(cfg.genesis, l.frames + l.more).value)
  }

  lemma {:induction false} BuiltDated(cfg: Config, st: FlockState, specs: seq<Spec>)
    requires Sound(st, cfg.genesis) && ServerDated(st) && cfg.key.cert == cfg.genesis.serverCert && Built(cfg, st, specs).Ok?
    ensures Sound(Built(cfg, st, specs).value.1, cfg.genesis) && ServerDated(Built(cfg, st, specs).value.1)
  {
    hide Sound, Prepare, Taken, Replayed, KindOf, ServerDated;
    if |specs| > 0 {
      BuiltDated(cfg, st, specs[..|specs| - 1]);
      var spec, before := specs[|specs| - 1], Built(cfg, st, specs[..|specs| - 1]).value.1;
      var (node, sig) := ServerEvent(before, cfg.key, spec.kind, spec.refs, spec.body);
      PreparedReplays(before, cfg.genesis, cfg.key, node, sig);
      SealedEvent(before, cfg.key, node, sig);
      DatedStep(before, cfg.genesis, Prepare(before, cfg.key, node, sig).value.sealed);
    }
  }

  lemma DecisionDated(cfg: Config, st: FlockState, node: EventNode, sig: Assertion)
    requires Sound(st, cfg.genesis) && ServerDated(st) && cfg.key.cert == cfg.genesis.serverCert
    requires Decided(cfg, st, node, sig).Takes?
    requires node.payload.author == cfg.genesis.serverCert.key ==> EventId(node) in st.board.entries
    ensures ServerDated(Decided(cfg, st, node, sig).next)
  {
    hide Sound, Prepare, Taken, Replayed, KindOf, ServerDated, DropsMember, Built;
    SoundNames(st, cfg.genesis);
    PreparedReplays(st, cfg.genesis, cfg.key, node, sig);
    SealedEvent(st, cfg.key, node, sig);
    var p := Prepare(st, cfg.key, node, sig).value;
    DatedStep(st, cfg.genesis, p.sealed);
    var next := Committed(st, p);
    if Built(cfg, next, [BumpSpec(next)]).Ok? {
      BuiltDated(cfg, next, [BumpSpec(next)]);
    }
  }

  /** A frame whose end state is dated keeps the ledger so, filed or in flight. */
  lemma FiledDated(cfg: Config, l: Ledger, frame: Frame, next: FlockState, plan: Option<CrashPlan>)
    requires LedgerDated(cfg, l) && l.more == []
    requires FrameTaken(Rebuilt(cfg.genesis, l.frames).value, frame) == Ok(next) && ServerDated(next)
    ensures LedgerDated(cfg, FrameFiled(cfg, l, frame, plan))
  {
    hide Rebuilt, FrameTaken, ServerDated, Fits;
    RebuiltMore(cfg.genesis, l.frames, frame);
    assert l.frames + [frame] + [] == l.frames + [frame];
  }

  lemma StepDated(cfg: Config, w: World, l: Ledger, act: Act)
    requires ConfigOk(cfg) && Kept(cfg, w, l) && Possible(w, act) && LedgerDated(cfg, l)
    requires w.Up? && act.Admitting? && act.node.payload.author == cfg.genesis.serverCert.key ==>
               EventId(act.node) in w.sv.st.board.entries
    ensures LedgerDated(cfg, NextLedger(cfg, w, l, act))
  {
    hide ConfigOk, Kept, Possible, Opened, FramesOf, Rebuilt, ServerDated, Sound, Decided, Transacted, Saved, Journaled, FrameTaken,
         RefusalOf, Fits, Acknowledged;
    StepKeeps(cfg, w, l, act);
    var w', l' := Stepped(cfg, w, act), NextLedger(cfg, w, l, act);
    if w'.Down? {
    } else if w.Down? {
      OpenSucceeds(cfg, w.log, w.refusalLog, l);
      assert l'.frames + [] == l'.frames;
    } else {
      ServesLedger(cfg, w.sv, l);
      ServesState(cfg, w.sv, l);
      ServesSound(cfg, w.sv, l);
      ServesLedger(cfg, w'.sv, l');
      if !w.sv.poisoned && act.Admitting? && Decided(cfg, w.sv.st, act.node, act.sig).Takes? {
        TakeDated(cfg, w, l, act);
      } else if !w.sv.poisoned && act.Calling? && Transacted(cfg, w.sv.st, act.call).Ok? {
        CallDated(cfg, w, l, act);
      } else {
        QuietStep(cfg, w.sv, act);
        assert l'.frames == l.frames && l'.more == l.more;
      }
    }
  }

  lemma QuietStep(cfg: Config, sv: ServerState, act: Act)
    requires !sv.poisoned && act.Admitting? ==> !Decided(cfg, sv.st, act.node, act.sig).Takes?
    requires !sv.poisoned && act.Calling? ==> Transacted(cfg, sv.st, act.call).Err?
    ensures Stepped(cfg, Up(sv), act).Up? ==> Stepped(cfg, Up(sv), act).sv.journal == sv.journal
    ensures !sv.poisoned ==> FrameInFlight(cfg, sv, act) == []
  {
    hide Decided, SpecsOf, Sealing, Opened, Fits, RefusalOf;
  }

  lemma TakeDated(cfg: Config, w: World, l: Ledger, act: Act)
    requires ConfigOk(cfg) && Kept(cfg, w, l) && LedgerDated(cfg, l) && w.Up? && !w.sv.poisoned && act.Admitting?
    requires Decided(cfg, w.sv.st, act.node, act.sig).Takes?
    requires act.node.payload.author == cfg.genesis.serverCert.key ==> EventId(act.node) in w.sv.st.board.entries
    ensures LedgerDated(cfg, NextLedger(cfg, w, l, act))
  {
    hide ConfigOk, Kept, FramesOf, Rebuilt, ServerDated, Sound, Decided, Saved, FrameTaken, Acknowledged, Fits;
    var Takes(frame, next, _, _) := Decided(cfg, w.sv.st, act.node, act.sig);
    ServesLedger(cfg, w.sv, l);
    ServesState(cfg, w.sv, l);
    ServesSound(cfg, w.sv, l);
    TakesReplays(cfg, w.sv, l, act.node, act.sig);
    DecisionDated(cfg, w.sv.st, act.node, act.sig);
    FiledDated(cfg, l, frame, next, act.plan);
    SavedKeeps(cfg, w.sv, l, frame, next, act.plan);
    ServesLedger(cfg, Saved(cfg, w.sv, frame, next, act.plan).0, FrameFiled(cfg, l, frame, act.plan));
  }

  lemma CallDated(cfg: Config, w: World, l: Ledger, act: Act)
    requires ConfigOk(cfg) && Kept(cfg, w, l) && LedgerDated(cfg, l) && w.Up? && !w.sv.poisoned && act.Calling?
    requires Transacted(cfg, w.sv.st, act.call).Ok?
    ensures LedgerDated(cfg, NextLedger(cfg, w, l, act))
  {
    hide ConfigOk, Kept, FramesOf, Rebuilt, ServerDated, Sound, Saved, FrameTaken, SpecsOf, Built, Fits;
    var (frame, next) := Transacted(cfg, w.sv.st, act.call).value;
    ServesLedger(cfg, w.sv, l);
    ServesState(cfg, w.sv, l);
    ServesSound(cfg, w.sv, l);
    TransactionReplays(cfg, w.sv.st, act.call);
    BuiltDated(cfg, w.sv.st, SpecsOf(w.sv.st, act.call).value);
    FiledDated(cfg, l, frame, next, act.plan);
    SavedKeeps(cfg, w.sv, l, frame, next, act.plan);
    ServesLedger(cfg, Saved(cfg, w.sv, frame, next, act.plan).0, FrameFiled(cfg, l, frame, act.plan));
  }

  lemma {:induction false} EveryHonestRunIsDated(cfg: Config, acts: seq<Act>)
    requires ConfigOk(cfg) && PossibleRun(cfg, FRESH, NOTHING_YET, acts) && HonestRun(cfg, FRESH, NOTHING_YET, acts)
    ensures LedgerDated(cfg, Walked(cfg, FRESH, NOTHING_YET, acts).1)
  {
    hide ConfigOk, Kept, Stepped, NextLedger, Possible, LedgerDated;
    if |acts| == 0 {
      NothingDated(cfg);
    } else {
      var init := acts[..|acts| - 1];
      EveryHonestRunIsDated(cfg, init);
      EveryRunIsKept(cfg, init);
      var (w, l) := Walked(cfg, FRESH, NOTHING_YET, init);
      StepDated(cfg, w, l, acts[|acts| - 1]);
    }
  }

  lemma NothingDated(cfg: Config)
    requires ConfigOk(cfg)
    ensures LedgerDated(cfg, NOTHING_YET)
  {
    hide Good, VerifyAt;
    var f: seq<Frame> := [];
    assert f + [] == f;
  }

  /**
   Progress. At any point of any life of an honest server, whatever crashes it has been
   through: a server that is up and has not stopped ends any live session it is asked to,
   in one frame holding the `session-end` and its bump, provided only that the genesis
   certificate covers the next epoch, the frame fits, and the disk does not fail.
   */
  lemma EndingCommits(cfg: Config, acts: seq<Act>, session: string, reason: EndReason)
    requires ConfigOk(cfg) && PossibleRun(cfg, FRESH, NOTHING_YET, acts) && HonestRun(cfg, FRESH, NOTHING_YET, acts)
    requires Walked(cfg, FRESH, NOTHING_YET, acts).0.Up?
    requires var sv := Walked(cfg, FRESH, NOTHING_YET, acts).0.sv; !sv.poisoned && Live(sv.st.sessions, session)
    requires
      var st := Walked(cfg, FRESH, NOTHING_YET, acts).0.sv.st;
      var built := Built(cfg, st, SpecsOf(st, EndSession(session, reason)).value);
      built.Ok? ==> cfg.fits(built.value.0) && Fits(cfg.frames, built.value.0)
    ensures
      var sv := Walked(cfg, FRESH, NOTHING_YET, acts).0.sv;
      var (sv', r) := CallStep(cfg, sv, EndSession(session, reason), None);
      && (r.Ok? <==> VerifyAt(cfg.genesis.serverCert, sv.st.chain.epoch + 1))
      && (r.Ok? ==>
            && |sv'.journal| == |sv.journal| + 1 && sv'.journal[..|sv.journal|] == sv.journal
            && var f := sv'.journal[|sv.journal|].frame;
            && |f| == 2 && f[0].event.payload.kind.SessionEnd? && f[1].event.payload.kind.Epoch?
            && sv'.st.chain.epoch == sv.st.chain.epoch + 1
            && !Live(sv'.st.sessions, session) && session !in sv'.journal[|sv.journal|].eligible
            && forall s {:trigger Live(sv'.st.sessions, s)} :: s != session ==> (Live(sv'.st.sessions, s) <==> Live(sv.st.sessions, s)))
  {
    hide ConfigOk, Kept, Walked, PossibleRun, HonestRun, ServerDated, Sound, Built, VerifyAt, Encoded, Appended, Rebuilt;
    EveryRunIsKept(cfg, acts);
    EveryHonestRunIsDated(cfg, acts);
    var (w, l) := Walked(cfg, FRESH, NOTHING_YET, acts);
    ServesState(cfg, w.sv, l);
    ServesSound(cfg, w.sv, l);
    EndingBuilds(cfg, w.sv.st, session, reason);
  }
}

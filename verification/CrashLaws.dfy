/** No crash, at any byte of an append to either log, loses what was promised. */
module CrashLaws {
  import opened Results
  import opened Schema
  import opened StateModel
  import opened FlockLaws
  import opened FlockTheorems
  import opened RefusalChain
  import opened Codec
  import opened LogModel
  import opened ServerModel
  import opened LiveReplay
  import opened ServerRuns

  // ------------------------------------------------------------------ one append

  /** The ledger after a frame is appended, or dies being appended. */
  function FrameFiled(cfg: Config, l: Ledger, frame: Frame, plan: Option<CrashPlan>): Ledger {
    if !Fits(cfg.frames, frame) then l
    else if plan.None? then l.(frames := l.frames + [frame])
    else l.(more := [frame])
  }

  function RefusalFiled(cfg: Config, l: Ledger, e: RefusalEntry, plan: Option<CrashPlan>): Ledger {
    if !Fits(cfg.entries, e) then l
    else if plan.None? then l.(refusals := l.refusals + [e])
    else l.(moreRefusals := [e])
  }

  lemma FrameFiledHonest(cfg: Config, l: Ledger, frame: Frame, plan: Option<CrashPlan>)
    requires ConfigOk(cfg) && Honest(cfg, l) && l.more == []
    requires FrameTaken(Rebuilt(cfg.genesis, l.frames).value, frame).Ok?
    ensures Honest(cfg, FrameFiled(cfg, l, frame, plan))
    ensures AllFit(cfg.frames, l.frames) && (Fits(cfg.frames, frame) ==> AllFit(cfg.frames, l.frames + [frame]))
  {
    hide Rebuilt, FrameTaken, GenesisOk, Good, RefusalsHold, ReceiptHonoured, Sound, Fits;
    var g, st := cfg.genesis, Rebuilt(cfg.genesis, l.frames).value;
    SoundRebuilt(g, l.frames);
    RebuiltMore(g, l.frames, frame);
    SoundFrame(st, g, frame);
    assert l.frames + [] == l.frames;
    assert l.frames + [frame] + [] == l.frames + [frame];
    RefusalsStay(cfg, st, FrameTaken(st, frame).value, l.refusals + l.moreRefusals);
  }

  lemma SavedKeeps(cfg: Config, sv: ServerState, l: Ledger, frame: Frame, next: FlockState, plan: Option<CrashPlan>)
    requires ConfigOk(cfg) && Kept(cfg, Up(sv), l) && !sv.poisoned && FrameTaken(sv.st, frame) == Ok(next)
    ensures Kept(cfg, Up(Saved(cfg, sv, frame, next, plan).0), FrameFiled(cfg, l, frame, plan))
  {
    hide Rebuilt, FrameTaken, GenesisOk, Good, RefusalsHold, ReceiptHonoured, Sound, Fits, Encoded, EncodedAll, Republished,
         VerifyChain, Appended, Eligible, AllFit, Honest;
    assert Honest(cfg, l) && Rebuilt(cfg.genesis, l.frames) == Ok(sv.st);
    FrameFiledHonest(cfg, l, frame, plan);
    RebuiltMore(cfg.genesis, l.frames, frame);
    if Fits(cfg.frames, frame) {
      AppendLeaves(cfg.frames, sv.log, l.frames, frame, plan);
      if plan.None? {
        ChainAfterFrame(cfg, sv, l, frame, next);
        NothingInFlight(cfg.frames, Saved(cfg, sv, frame, next, plan).0.log, l.frames + [frame]);
      }
    }
  }

  lemma NothingInFlight<T>(c: Codec<T>, d: Disk, vs: seq<T>)
    requires AllFit(c, vs) && Settled(c, d, vs)
    ensures AllFit(c, vs + []) && InFlight(c, d, vs, [])
  {
    assert vs + [] == vs;
  }

  lemma ChainAfterFrame(cfg: Config, sv: ServerState, l: Ledger, frame: Frame, next: FlockState)
    requires ConfigOk(cfg) && Kept(cfg, Up(sv), l) && !sv.poisoned && FrameTaken(sv.st, frame) == Ok(next)
    ensures
      var g := cfg.genesis;
      VerifyChain(l.refusals, GenesisId(g), g.serverCert.key, next.chain.epoch, AdmittedCount(next))
      == VerifyChain(l.refusals, GenesisId(g), g.serverCert.key, sv.st.chain.epoch, AdmittedCount(sv.st))
  {
    hide Rebuilt, FrameTaken, GenesisOk, Good, ReceiptHonoured, Sound, Fits, Republished, VerifyChain, AllFit, Settled, InFlight;
    SoundRebuilt(cfg.genesis, l.frames);
    SoundFrame(sv.st, cfg.genesis, frame);
    assert l.refusals + l.moreRefusals == l.refusals;
    RefusalsStay(cfg, sv.st, next, l.refusals);
  }

  lemma JournaledKeeps(cfg: Config, sv: ServerState, l: Ledger, node: EventNode, why: Refusal, plan: Option<CrashPlan>)
    requires ConfigOk(cfg) && Kept(cfg, Up(sv), l) && !sv.poisoned
    ensures
      var e := RefusalOf(cfg, sv, node, why);
      Kept(cfg, Up(Journaled(cfg, sv, e, plan).0), RefusalFiled(cfg, l, e, plan))
  {
    hide Rebuilt, GenesisOk, Good, ReceiptHonoured, Sound, Fits, Encoded, EncodedAll, Republished, VerifyChain, Appended,
         Eligible, RefusalsHold;
    var e := RefusalOf(cfg, sv, node, why);
    SoundRebuilt(cfg.genesis, l.frames);
    assert l.refusals + l.moreRefusals == l.refusals;
    assert l.refusals + [e] + [] == l.refusals + [e];
    RefusalExtends(cfg, sv.st, l.refusals, e.record.payload);
    if Fits(cfg.entries, e) {
      AppendLeaves(cfg.entries, sv.refusalLog, l.refusals, e, plan);
      if plan.None? {
        NothingInFlight(cfg.entries, Journaled(cfg, sv, e, plan).0.refusalLog, l.refusals + [e]);
      }
    }
  }

  // ------------------------------------------------------------------ one call

  /** A running server's ledger is what it has published and journaled. */
  lemma ServesLedger(cfg: Config, sv: ServerState, l: Ledger)
    requires Kept(cfg, Up(sv), l)
    ensures FramesOf(sv.journal) == l.frames && sv.refusals == l.refusals
    ensures !sv.poisoned ==> l.more == [] && l.moreRefusals == []
  {
    hide Rebuilt, Republished, VerifyChain, Honest, OnDisk, Settled;
    assert Honest(cfg, l) && Serves(cfg, sv, l);
    RepublishedFrames(cfg.genesis, l.frames);
  }

  lemma MoreReceipts(cfg: Config, w: World, l: Ledger, receipts: set<(Id, nat)>)
    requires Kept(cfg, w, l)
    requires forall r :: r in receipts ==> ReceiptHonoured(Rebuilt(cfg.genesis, l.frames).value, r)
    ensures Kept(cfg, w, l.(receipts := l.receipts + receipts))
  {
    hide Rebuilt, ReceiptHonoured, RefusalsHold, AllFit, InFlight, Settled, VerifyChain, Republished;
  }

  lemma AdmitKeeps(cfg: Config, sv: ServerState, l: Ledger, act: Act)
    requires ConfigOk(cfg) && Kept(cfg, Up(sv), l) && act.Admitting?
    ensures Kept(cfg, Stepped(cfg, Up(sv), act), NextLedger(cfg, Up(sv), l, act))
  {
    hide ConfigOk, Kept, Decided, Saved, Journaled, Fits, RefusalOf, FramesOf, Rebuilt, ReceiptHonoured;
    var sv' := AdmitStep(cfg, sv, act.node, act.sig, act.plan, act.refusalPlan).0;
    ServesLedger(cfg, sv, l);
    AdmitReceipts(cfg, sv, l, act);
    if !sv.poisoned {
      match Decided(cfg, sv.st, act.node, act.sig) {
        case Journals(why) =>
          JournaledKeeps(cfg, sv, l, act.node, why, act.refusalPlan);
          ServesLedger(cfg, sv', RefusalFiled(cfg, l, RefusalOf(cfg, sv, act.node, why), act.refusalPlan));
          assert NextLedger(cfg, Up(sv), l, act) == RefusalFiled(cfg, l, RefusalOf(cfg, sv, act.node, why), act.refusalPlan);
        case Takes(frame, next, index, conflict) =>
          TakesReplays(cfg, sv, l, act.node, act.sig);
          SavedKeeps(cfg, sv, l, frame, next, act.plan);
          var l' := FrameFiled(cfg, l, frame, act.plan);
          ServesLedger(cfg, sv', l');
          ServesState(cfg, sv', l');
          MoreReceipts(cfg, Up(sv'), l', Acknowledged(cfg, sv, act));
          assert NextLedger(cfg, Up(sv), l, act) == l'.(receipts := l'.receipts + Acknowledged(cfg, sv, act));
        case Known(index) =>
          ServesState(cfg, sv, l);
          MoreReceipts(cfg, Up(sv), l, Acknowledged(cfg, sv, act));
          assert NextLedger(cfg, Up(sv), l, act) == l.(receipts := l.receipts + Acknowledged(cfg, sv, act));
        case Refuses(e) =>
          assert NextLedger(cfg, Up(sv), l, act) == l;
      }
    } else {
      assert NextLedger(cfg, Up(sv), l, act) == l;
    }
  }

  lemma ServesState(cfg: Config, sv: ServerState, l: Ledger)
    requires Kept(cfg, Up(sv), l)
    ensures Rebuilt(cfg.genesis, l.frames) == Ok(sv.st)
  {
    hide Rebuilt, Republished, VerifyChain, Honest, OnDisk, Settled;
    assert Honest(cfg, l) && Serves(cfg, sv, l);
  }

  lemma ServesSound(cfg: Config, sv: ServerState, l: Ledger)
    requires ConfigOk(cfg) && Kept(cfg, Up(sv), l)
    ensures Sound(sv.st, cfg.genesis) && cfg.key.cert == cfg.genesis.serverCert
  {
    hide Kept, Sound, GenesisOk, Good, Rebuilt;
    ServesState(cfg, sv, l);
    SoundRebuilt(cfg.genesis, l.frames);
  }

  lemma TakesReplays(cfg: Config, sv: ServerState, l: Ledger, node: EventNode, sig: Assertion)
    requires ConfigOk(cfg) && Kept(cfg, Up(sv), l) && Decided(cfg, sv.st, node, sig).Takes?
    ensures
      var d := Decided(cfg, sv.st, node, sig);
      && FrameTaken(sv.st, d.frame) == Ok(d.next)
      && ReceiptHonoured(d.next, (EventId(node), d.index))
  {
    hide ConfigOk, Kept, Decided, Sound, FrameTaken;
    ServesSound(cfg, sv, l);
    DecisionReplays(cfg, sv.st, node, sig);
  }

  /** A receipt is for an event in the state the server then holds. */
  lemma AdmitReceipts(cfg: Config, sv: ServerState, l: Ledger, act: Act)
    requires ConfigOk(cfg) && Kept(cfg, Up(sv), l) && act.Admitting?
    ensures forall r :: r in Acknowledged(cfg, sv, act) ==>
              ReceiptHonoured(AdmitStep(cfg, sv, act.node, act.sig, act.plan, act.refusalPlan).0.st, r)
    ensures !sv.poisoned && (Decided(cfg, sv.st, act.node, act.sig).Journals? || Decided(cfg, sv.st, act.node, act.sig).Refuses?) ==>
              Acknowledged(cfg, sv, act) == {}
    ensures sv.poisoned ==> Acknowledged(cfg, sv, act) == {}
  {
    hide ConfigOk, Kept, Prepare, Committed, Built, Journaled, Encoded, Appended, FrameTaken;
    if Decided(cfg, sv.st, act.node, act.sig).Takes? {
      TakesReplays(cfg, sv, l, act.node, act.sig);
    }
  }

  /** Every entry of a frame lands at its own index. */
  lemma {:induction false} TailLands(st: FlockState, g: Genesis, f: Frame, i: nat, j: nat)
    requires i <= j < |f| && Sound(st, g) && ReplayedFrom(st, f, i).Ok?
    ensures ReceiptHonoured(ReplayedFrom(st, f, i).value, (EventId(f[j].event), AdmittedCount(st) + 1 + j - i))
    decreases |f| - i
  {
    hide Replayed, Sound, DropsMember, ReceiptHonoured;
    var mid := Replayed(st, f[i]).value;
    SoundNames(st, g);
    SoundReplay(st, g, f[i]);
    ReplayAdvances(st, f[i]);
    SoundTail(mid, g, f, i + 1);
    if i == j {
      LandsThere(st, g, f[i]);
    } else {
      TailLands(mid, g, f, i + 1, j);
    }
  }

  lemma LandsThere(st: FlockState, g: Genesis, s: Sealed)
    requires Sound(st, g) && Replayed(st, s).Ok?
    ensures ReceiptHonoured(Replayed(st, s).value, (EventId(s.event), AdmittedCount(st) + 1))
  {
    hide Replayed, Sound;
    EntryLands(st, g, s);
    SoundNames(st, g);
    ReplayAdvances(st, s);
  }

  lemma FrameLands(st: FlockState, g: Genesis, f: Frame)
    requires Sound(st, g) && FrameTaken(st, f).Ok?
    ensures forall r :: r in Indexed(IdsOf(f), AdmittedCount(st)) ==> ReceiptHonoured(FrameTaken(st, f).value, r)
  {
    hide ReplayedFrom, Sound, FrameShape, ReceiptHonoured;
    forall r | r in Indexed(IdsOf(f), AdmittedCount(st))
      ensures ReceiptHonoured(FrameTaken(st, f).value, r)
    {
      var j :| 0 <= j < |IdsOf(f)| && r == (IdsOf(f)[j], AdmittedCount(st) + 1 + j);
      TailLands(st, g, f, 0, j);
    }
  }

  lemma CallKeeps(cfg: Config, sv: ServerState, l: Ledger, act: Act)
    requires ConfigOk(cfg) && Kept(cfg, Up(sv), l) && act.Calling?
    ensures Kept(cfg, Stepped(cfg, Up(sv), act), NextLedger(cfg, Up(sv), l, act))
  {
    hide ConfigOk, Kept, SpecsOf, Sealing, Saved, Fits, FramesOf, FrameTaken, Sound, Rebuilt, ReceiptHonoured, Indexed;
    var sv' := CallStep(cfg, sv, act.call, act.plan).0;
    ServesLedger(cfg, sv, l);
    if !sv.poisoned && Transacted(cfg, sv.st, act.call).Ok? {
      var (frame, next) := Transacted(cfg, sv.st, act.call).value;
      ServesSound(cfg, sv, l);
      TransactionReplays(cfg, sv.st, act.call);
      SavedKeeps(cfg, sv, l, frame, next, act.plan);
      var l' := FrameFiled(cfg, l, frame, act.plan);
      ServesLedger(cfg, sv', l');
      ServesState(cfg, sv', l');
      FrameLands(sv.st, cfg.genesis, frame);
      SavedHolds(cfg, sv, frame, next, act.plan);
      MoreReceipts(cfg, Up(sv'), l', Acknowledged(cfg, sv, act));
      assert NextLedger(cfg, Up(sv), l, act) == l'.(receipts := l'.receipts + Acknowledged(cfg, sv, act));
    } else {
      assert NextLedger(cfg, Up(sv), l, act) == l;
    }
  }

  lemma SavedHolds(cfg: Config, sv: ServerState, frame: Frame, next: FlockState, plan: Option<CrashPlan>)
    ensures var (sv', failed) := Saved(cfg, sv, frame, next, plan); failed.None? ==> sv'.st == next
  {
    hide Fits, Encoded, Appended, Eligible;
  }

  // ------------------------------------------------------------------ losing power

  lemma LossKeeps(cfg: Config, w: World, l: Ledger, act: Act)
    requires ConfigOk(cfg) && Kept(cfg, w, l) && (act.Kill? || act.PowerLoss?) && Possible(w, act)
    ensures Kept(cfg, Stepped(cfg, w, act), NextLedger(cfg, w, l, act))
  {
    hide Honest, Serves, InFlight, AdmitStep, CallStep, Opened, ConfigOk, Survives;
    assert Honest(cfg, l);
    HonestFits(cfg, l);
    if act.PowerLoss? {
      LossKeepsInFlight(cfg.frames, LogOf(w), l.frames, l.more, act.found);
      LossKeepsInFlight(cfg.entries, RefusalLogOf(w), l.refusals, l.moreRefusals, act.foundRefusals);
    }
  }

  lemma HonestFits(cfg: Config, l: Ledger)
    requires Honest(cfg, l)
    ensures AllFit(cfg.frames, l.frames) && AllFit(cfg.frames, l.frames + l.more) && |l.more| <= 1
    ensures AllFit(cfg.entries, l.refusals) && AllFit(cfg.entries, l.refusals + l.moreRefusals) && |l.moreRefusals| <= 1
  {
    hide Rebuilt, RefusalsHold, AllFit;
  }

  // ------------------------------------------------------------------ reopening

  /** The ledger with each in-flight append either kept or gone. */
  ghost predicate Settles(l: Ledger, l': Ledger) {
    && (l'.frames == l.frames || l'.frames == l.frames + l.more)
    && (l'.refusals == l.refusals || l'.refusals == l.refusals + l.moreRefusals)
    && l'.more == [] && l'.moreRefusals == [] && l'.receipts == l.receipts
  }

  lemma SettledHonest(cfg: Config, l: Ledger, l': Ledger)
    requires ConfigOk(cfg) && Honest(cfg, l) && Settles(l, l')
    ensures Honest(cfg, l')
    ensures RefusalsHold(cfg, Rebuilt(cfg.genesis, l'.frames).value, l'.refusals)
  {
    hide Rebuilt, GenesisOk, Good, ReceiptHonoured, Sound, Fits, RefusalsHold;
    var g, st := cfg.genesis, Rebuilt(cfg.genesis, l.frames).value;
    assert l'.frames + [] == l'.frames && l'.refusals + [] == l'.refusals;
    assert l.frames + l.more == l.frames || l.more == [l.more[0]];
    SoundRebuilt(g, l.frames);
    if l.more != [] {
      RebuiltMore(g, l.frames, l.more[0]);
      SoundFrame(st, g, l.more[0]);
      assert l.more == [l.more[0]];
    } else {
      assert l.frames + l.more == l.frames;
    }
    SoundRebuilt(g, l'.frames);
    assert AdmittedCount(st) <= AdmittedCount(Rebuilt(g, l'.frames).value);
    RefusalsStay(cfg, st, Rebuilt(g, l'.frames).value, l.refusals + l.moreRefusals);
    RefusalsPrefix(cfg, Rebuilt(g, l'.frames).value, l.refusals, l.moreRefusals);
  }

  lemma RefusalsPrefix(cfg: Config, st: FlockState, es: seq<RefusalEntry>, more: seq<RefusalEntry>)
    requires RefusalsHold(cfg, st, es + more) && |more| <= 1
    ensures RefusalsHold(cfg, st, es)
  {
    hide VerifyRefusal;
    if more == [] {
      assert es + more == es;
    } else {
      assert (es + more)[..|es + more| - 1] == es;
      forall i | 0 <= i < |es|
        ensures es[i].sig.author == cfg.genesis.serverCert
      {
        assert (es + more)[i] == es[i];
      }
    }
  }

  /** Reopening succeeds on whatever a crash left, with each in-flight append wholly there
      or wholly gone. */
  lemma OpenSucceeds(cfg: Config, log: Disk, refusalLog: Disk, l: Ledger)
    requires ConfigOk(cfg) && Kept(cfg, Down(log, refusalLog), l)
    ensures
      var o := Opened(cfg, log, refusalLog);
      && o.Ok? && !o.value.poisoned
      && var l' := Ledger(FramesOf(o.value.journal), [], o.value.refusals, [], l.receipts);
      && Settles(l, l') && Kept(cfg, Up(o.value), l')
  {
    hide Honest, InFlight, Rebuilt, ParsedFrom, Good, GenesisOk, VerifyChain, Republished, RefusalsHold, EncodedAll, Recovered,
         AllFit, Values, Placed, FramesOf;
    assert Honest(cfg, l);
    HonestFits(cfg, l);
    InFlightParses(cfg.frames, log, l.frames, l.more);
    InFlightParses(cfg.entries, refusalLog, l.refusals, l.moreRefusals);
    var frames := Values(ParsedFrom(cfg.frames, log.visible, 0, []).frames);
    var entries := Values(ParsedFrom(cfg.entries, refusalLog.visible, 0, []).frames);
    var l' := Ledger(frames, [], entries, [], l.receipts);
    SettledHonest(cfg, l, l');
    OpenedState(cfg, l', log, refusalLog);
    var sv := Opened(cfg, log, refusalLog).value;
    RepublishedFrames(cfg.genesis, frames);
    NothingInFlight(cfg.frames, sv.log, frames);
    NothingInFlight(cfg.entries, sv.refusalLog, entries);
  }

  lemma OpenedState(cfg: Config, l: Ledger, log: Disk, refusalLog: Disk)
    requires ConfigOk(cfg) && Honest(cfg, l) && RefusalsHold(cfg, Rebuilt(cfg.genesis, l.frames).value, l.refusals)
    requires
      var p := ParsedFrom(cfg.frames, log.visible, 0, []);
      p.Parsed? && Values(p.frames) == l.frames && (p.cut.Some? ==> p.cut.value <= |log.visible|)
    requires
      var p := ParsedFrom(cfg.entries, refusalLog.visible, 0, []);
      p.Parsed? && Values(p.frames) == l.refusals && (p.cut.Some? ==> p.cut.value <= |refusalLog.visible|)
    ensures
      var o := Opened(cfg, log, refusalLog);
      && o.Ok? && !o.value.poisoned
      && Rebuilt(cfg.genesis, l.frames) == Ok(o.value.st)
      && o.value.journal == Republished(cfg.genesis, l.frames)
      && o.value.refusals == l.refusals
      && (var chain := VerifyChain(l.refusals, GenesisId(cfg.genesis), cfg.genesis.serverCert.key, o.value.st.chain.epoch, AdmittedCount(o.value.st));
          chain.Ok? && chain.value.prev == o.value.refusalPrev)
      && o.value.log == Recovered(log, ParsedFrom(cfg.frames, log.visible, 0, []).cut)
      && o.value.refusalLog == Recovered(refusalLog, ParsedFrom(cfg.entries, refusalLog.visible, 0, []).cut)
  {
    hide InFlight, Rebuilt, ParsedFrom, Good, GenesisOk, VerifyChain, Republished, EncodedAll, Recovered, AllFit, Values,
         Placed, Sound;
    SoundRebuilt(cfg.genesis, l.frames);
    SoundNames(Rebuilt(cfg.genesis, l.frames).value, cfg.genesis);
  }

  /** What the laws say of a state's names, counts and certificate. */
  lemma SoundNames(st: FlockState, g: Genesis)
    requires Sound(st, g)
    ensures st.board.flock == GenesisId(g) && st.chain.serverPub == g.serverCert.key && st.chain.serverCert == g.serverCert
    ensures st.chain.nextIndex == |st.board.order| + 1
    ensures VerifyAt(g.serverCert, st.chain.epoch)
  {
    hide VerifyAt;
  }

  lemma ReopenKeeps(cfg: Config, w: World, l: Ledger)
    requires ConfigOk(cfg) && Kept(cfg, w, l) && w.Down?
    ensures Kept(cfg, Stepped(cfg, w, Reopen), NextLedger(cfg, w, l, Reopen))
  {
    hide ConfigOk, Kept, Opened, Settles, FramesOf;
    OpenSucceeds(cfg, w.log, w.refusalLog, l);
  }

  /** A recovery that dies anywhere leaves files that reopen the same way. */
  lemma DeadRecoveryKeeps(cfg: Config, w: World, l: Ledger, act: Act)
    requires ConfigOk(cfg) && Kept(cfg, w, l) && w.Down? && act.ReopenDies?
    ensures Kept(cfg, Stepped(cfg, w, act), l)
  {
    hide Honest, InFlight, Rebuilt, ParsedFrom, Good, GenesisOk, EncodedAll, Recovered, AllFit, Settles, FramesOf, Serves,
         VerifyChain, Republished;
    assert Honest(cfg, l);
    HonestFits(cfg, l);
    OpenSucceeds(cfg, w.log, w.refusalLog, l);
    RecoveryInFlight(cfg.frames, w.log, l.frames, l.more);
    RecoveryInFlight(cfg.entries, w.refusalLog, l.refusals, l.moreRefusals);
  }

  lemma RecoveryInFlight<T(!new)>(c: Codec<T>, d: Disk, vs: seq<T>, more: seq<T>)
    requires Good(c) && AllFit(c, vs) && AllFit(c, vs + more) && |more| <= 1 && InFlight(c, d, vs, more)
    ensures
      var p := ParsedFrom(c, d.visible, 0, []);
      && p.Parsed? && (p.cut.Some? ==> p.cut.value <= |d.visible|)
      && InFlight(c, Recovered(d, p.cut), vs, more)
      && InFlight(c, Disk(d.durable, Recovered(d, p.cut).visible), vs, more)
  {
    hide EncodedAll, ParsedFrom, Good;
    CutKeepsInFlight(c, d, vs, more);
  }

  // ------------------------------------------------------------------ every run

  /** What was told stays told. */
  ghost predicate Grows(l: Ledger, l': Ledger) {
    l.frames <= l'.frames && l.refusals <= l'.refusals && l.receipts <= l'.receipts
  }

  lemma StepKeeps(cfg: Config, w: World, l: Ledger, act: Act)
    requires ConfigOk(cfg) && Kept(cfg, w, l) && Possible(w, act)
    ensures Kept(cfg, Stepped(cfg, w, act), NextLedger(cfg, w, l, act))
  {
    hide ConfigOk, Kept, AdmitStep, CallStep, Opened, Possible, FramesOf;
    match act {
      case Admitting(_, _, _, _) =>
        if w.Up? {
          AdmitKeeps(cfg, w.sv, l, act);
        } else {
          assert NextLedger(cfg, w, l, act) == l;
        }
      case Calling(_, _) =>
        if w.Up? {
          CallKeeps(cfg, w.sv, l, act);
        } else {
          assert NextLedger(cfg, w, l, act) == l;
        }
      case Kill => LossKeeps(cfg, w, l, act);
      case PowerLoss(_, _) => LossKeeps(cfg, w, l, act);
      case Reopen =>
        if w.Up? {
          IdleKeeps(cfg, w, l, act);
        } else {
          ReopenKeeps(cfg, w, l);
        }
      case ReopenDies(_) =>
        if w.Up? {
          IdleKeeps(cfg, w, l, act);
        } else {
          DeadRecoveryKeeps(cfg, w, l, act);
        }
    }
  }

  /** A server that is up is not reopened. */
  lemma IdleKeeps(cfg: Config, w: World, l: Ledger, act: Act)
    requires Kept(cfg, w, l) && w.Up? && (act.Reopen? || act.ReopenDies?)
    ensures Stepped(cfg, w, act) == w && NextLedger(cfg, w, l, act) == l
  {
    hide Kept, FramesOf;
    ServesLedger(cfg, w.sv, l);
  }

  lemma StepGrows(cfg: Config, w: World, l: Ledger, act: Act)
    requires ConfigOk(cfg) && Kept(cfg, w, l) && Possible(w, act)
    ensures Grows(l, NextLedger(cfg, w, l, act))
  {
    hide ConfigOk, Kept, Opened, Possible, FramesOf, Decided, Transacted, Eligible;
    if w.Up? {
      ServesLedger(cfg, w.sv, l);
      JournalGrows(cfg, w.sv, act);
    } else if act.Reopen? {
      OpenSucceeds(cfg, w.log, w.refusalLog, l);
    }
  }

  /** A running server publishes and journals at the end, and takes nothing back. */
  lemma JournalGrows(cfg: Config, sv: ServerState, act: Act)
    ensures var w' := Stepped(cfg, Up(sv), act);
            w'.Up? ==> FramesOf(sv.journal) <= FramesOf(w'.sv.journal) && sv.refusals <= w'.sv.refusals
  {
    hide Decided, SpecsOf, Sealing, Eligible, Opened, Fits, Encoded;
  }

  const FRESH := Down(Disk([], []), Disk([], []))

  lemma FreshIsKept(cfg: Config)
    requires ConfigOk(cfg)
    ensures Kept(cfg, FRESH, NOTHING_YET)
  {
    hide Good, VerifyAt;
    var f: seq<Frame> := [];
    assert f + [] == f;
    var e: seq<RefusalEntry> := [];
    assert e + [] == e;
  }

  /** After any run at all: both files hold everything told, and a server that is up holds
      exactly that. */
  lemma {:induction false} EveryRunIsKept(cfg: Config, acts: seq<Act>)
    requires ConfigOk(cfg) && PossibleRun(cfg, FRESH, NOTHING_YET, acts)
    ensures var (w, l) := Walked(cfg, FRESH, NOTHING_YET, acts); Kept(cfg, w, l)
  {
    hide ConfigOk, Kept, Stepped, NextLedger, Possible;
    if |acts| == 0 {
      FreshIsKept(cfg);
    } else {
      EveryRunIsKept(cfg, acts[..|acts| - 1]);
      var (w, l) := Walked(cfg, FRESH, NOTHING_YET, acts[..|acts| - 1]);
      StepKeeps(cfg, w, l, acts[|acts| - 1]);
    }
  }

  /** Nothing told at any point of a run is untold later: published frames and journaled
      refusals stay a prefix, receipts stay good. */
  lemma {:induction false} NothingToldIsLost(cfg: Config, acts: seq<Act>, n: nat)
    requires ConfigOk(cfg) && PossibleRun(cfg, FRESH, NOTHING_YET, acts) && n <= |acts|
    ensures Grows(Walked(cfg, FRESH, NOTHING_YET, acts[..n]).1, Walked(cfg, FRESH, NOTHING_YET, acts).1)
  {
    hide ConfigOk, Kept, Stepped, NextLedger, Possible;
    if n == |acts| {
      assert acts[..n] == acts;
    } else {
      var init := acts[..|acts| - 1];
      assert init[..n] == acts[..n];
      NothingToldIsLost(cfg, init, n);
      EveryRunIsKept(cfg, init);
      var (w, l) := Walked(cfg, FRESH, NOTHING_YET, init);
      StepGrows(cfg, w, l, acts[|acts| - 1]);
    }
  }

  /**
   The crash theorem. After any run that ended with the server down, however it went down,
   it opens; the state is the one just before or just after the transaction in flight;
   every event a caller holds a receipt for is on the board at its index; and the refusal
   chain verifies, none of it counting more admissions than the log holds.
   */
  lemma EveryCrashRecovers(cfg: Config, acts: seq<Act>)
    requires ConfigOk(cfg) && PossibleRun(cfg, FRESH, NOTHING_YET, acts)
    requires Walked(cfg, FRESH, NOTHING_YET, acts).0.Down?
    ensures
      var (w, l) := Walked(cfg, FRESH, NOTHING_YET, acts);
      var o := Opened(cfg, w.log, w.refusalLog);
      && o.Ok? && !o.value.poisoned
      && (Rebuilt(cfg.genesis, l.frames) == Ok(o.value.st) || Rebuilt(cfg.genesis, l.frames + l.more) == Ok(o.value.st))
      && |l.more| <= 1
      && (o.value.refusals == l.refusals || o.value.refusals == l.refusals + l.moreRefusals)
      && (forall r :: r in l.receipts ==> ReceiptHonoured(o.value.st, r))
      && RefusalsHold(cfg, o.value.st, o.value.refusals)
  {
    hide ConfigOk, Rebuilt, Walked, PossibleRun, FramesOf, InFlight, Serves, Republished, AllFit, RefusalsHold, ReceiptHonoured;
    EveryRunIsKept(cfg, acts);
    var (w, l) := Walked(cfg, FRESH, NOTHING_YET, acts);
    OpenSucceeds(cfg, w.log, w.refusalLog, l);
    var sv := Opened(cfg, w.log, w.refusalLog).value;
    var l' := Ledger(FramesOf(sv.journal), [], sv.refusals, [], l.receipts);
    ServesState(cfg, sv, l');
    assert l'.refusals + [] == l'.refusals;
  }

  /** What a running server has published is durable, byte for byte, and is exactly what
      its state is the replay of: live equals replay, over every run. */
  lemma PublishedIsDurable(cfg: Config, acts: seq<Act>)
    requires ConfigOk(cfg) && PossibleRun(cfg, FRESH, NOTHING_YET, acts)
    requires Walked(cfg, FRESH, NOTHING_YET, acts).0.Up?
    ensures
      var sv := Walked(cfg, FRESH, NOTHING_YET, acts).0.sv;
      var frames := FramesOf(sv.journal);
      && AllFit(cfg.frames, frames)
      && EncodedAll(cfg.frames, frames) <= sv.log.durable
      && Rebuilt(cfg.genesis, frames) == Ok(sv.st)
      && sv.journal == Republished(cfg.genesis, frames)
      && Sound(sv.st, cfg.genesis)
  {
    hide ConfigOk, Rebuilt, Walked, PossibleRun, FramesOf, Republished, AllFit, RefusalsHold, ReceiptHonoured, EncodedAll,
         VerifyChain, Settled, Sound;
    EveryRunIsKept(cfg, acts);
    var (w, l) := Walked(cfg, FRESH, NOTHING_YET, acts);
    ServesLedger(cfg, w.sv, l);
    ServesSound(cfg, w.sv, l);
  }
}

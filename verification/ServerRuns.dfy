/**
 Whole lives of a server: calls, failed appends, kills, power loss, reopenings, recoveries
 that die half way; and what they never lose.
 */
module ServerRuns {
  import opened Results
  import opened Schema
  import opened StateModel
  import opened SessionLaws
  import opened BoardLaws
  import opened WorkLines
  import opened FlockLaws
  import opened FlockTheorems
  import opened RefusalChain
  import opened Codec
  import opened LogModel
  import opened ServerModel
  import opened LiveReplay

  // ------------------------------------------------------------------ the machine

  datatype World =
    | Up(sv: ServerState)
    | Down(log: Disk, refusalLog: Disk)

  datatype Act =
    | Admitting(node: EventNode, sig: Assertion, plan: Option<CrashPlan>, refusalPlan: Option<CrashPlan>)
    | Calling(call: Call, plan: Option<CrashPlan>)
    | Kill
    | PowerLoss(found: seq<byte>, foundRefusals: seq<byte>)
    | Reopen
    | ReopenDies(at: RecoveryPoint)

  function LogOf(w: World): Disk { if w.Up? then w.sv.log else w.log }

  function RefusalLogOf(w: World): Disk { if w.Up? then w.sv.refusalLog else w.refusalLog }

  /** Power loss leaves what the disk may leave; everything else can always happen. */
  ghost predicate Possible(w: World, act: Act) {
    act.PowerLoss? ==> Survives(LogOf(w), act.found) && Survives(RefusalLogOf(w), act.foundRefusals)
  }

  function Stepped(cfg: Config, w: World, act: Act): World {
    match act
    case Admitting(node, sig, plan, refusalPlan) =>
      if w.Up? then Up(AdmitStep(cfg, w.sv, node, sig, plan, refusalPlan).0) else w
    case Calling(call, plan) => if w.Up? then Up(CallStep(cfg, w.sv, call, plan).0) else w
    case Kill => Down(LogOf(w), RefusalLogOf(w))
    case PowerLoss(found, foundRefusals) => Down(Disk(found, found), Disk(foundRefusals, foundRefusals))
    case Reopen =>
      if w.Up? then w
      else
        (match Opened(cfg, w.log, w.refusalLog)
         case Ok(sv) => Up(sv)
         case Err(_) => w)
    case ReopenDies(at) =>
      if w.Up? then w
      else
        match Opened(cfg, w.log, w.refusalLog)
        case Err(_) => w
        case Ok(sv) =>
          var (log, refusalLog) := LeftBy(w.log, w.refusalLog, sv, at);
          Down(log, refusalLog)
  }

  // ------------------------------------------------------------------ what has been promised

  /** What the world has been told so far, and the one append that may still be in flight:
      `frames` were published, `refusals` journaled, and `receipts` returned to callers: of an
      admission its receipt, of a call the ids of what it committed. */
  datatype Ledger = Ledger(
    frames: seq<Frame>, more: seq<Frame>, refusals: seq<RefusalEntry>, moreRefusals: seq<RefusalEntry>,
    receipts: set<(Id, nat)>)

  const NOTHING_YET := Ledger([], [], [], [], {})

  /** The frame an act was appending when it died. */
  function FrameInFlight(cfg: Config, sv: ServerState, act: Act): seq<Frame> {
    match act
    case Admitting(node, sig, plan, _) =>
      if plan.None? then []
      else
        (match Decided(cfg, sv.st, node, sig)
         case Takes(frame, _, _, _) => if Fits(cfg.frames, frame) then [frame] else []
         case _ => [])
    case Calling(call, plan) =>
      if plan.None? then []
      else
        (match Transacted(cfg, sv.st, call)
         case Ok((frame, _)) => if Fits(cfg.frames, frame) then [frame] else []
         case _ => [])
    case _ => []
  }

  function RefusalInFlight(cfg: Config, sv: ServerState, act: Act): seq<RefusalEntry> {
    match act
    case Admitting(node, sig, _, refusalPlan) =>
      if refusalPlan.None? then []
      else
        (match Decided(cfg, sv.st, node, sig)
         case Journals(why) =>
           var e := RefusalOf(cfg, sv, node, why);
           if Fits(cfg.entries, e) then [e] else []
         case _ => [])
    case _ => []
  }

  /** The events an act's caller is told are in the log, and where. */
  function Acknowledged(cfg: Config, sv: ServerState, act: Act): set<(Id, nat)> {
    match act
    case Admitting(node, sig, plan, refusalPlan) =>
      (match AdmitStep(cfg, sv, node, sig, plan, refusalPlan).1
       case Ok(receipt) => {(EventId(node), receipt.index)}
       case Err(_) => {})
    case Calling(call, plan) =>
      (match CallStep(cfg, sv, call, plan).1
       case Ok(ids) => Indexed(ids, AdmittedCount(sv.st))
       case Err(_) => {})
    case _ => {}
  }

  /** These ids, at the indices after `admitted`. */
  function Indexed(ids: seq<Id>, admitted: nat): set<(Id, nat)> {
    set i | 0 <= i < |ids| :: (ids[i], admitted + 1 + i)
  }

  /** The ledger after an act: whatever the server that is up then has published and
      journaled, plus what was in flight if it died. */
  function NextLedger(cfg: Config, w: World, l: Ledger, act: Act): Ledger {
    var w' := Stepped(cfg, w, act);
    if w'.Down? then l
    else
      Ledger(
        FramesOf(w'.sv.journal),
        if w.Down? then [] else if w.sv.poisoned then l.more else FrameInFlight(cfg, w.sv, act),
        w'.sv.refusals,
        if w.Down? then [] else if w.sv.poisoned then l.moreRefusals else RefusalInFlight(cfg, w.sv, act),
        if w.Down? then l.receipts else l.receipts + Acknowledged(cfg, w.sv, act))
  }

  /** The world and the ledger after a whole run. */
  function Walked(cfg: Config, w: World, l: Ledger, acts: seq<Act>): (World, Ledger) {
    if |acts| == 0 then (w, l)
    else
      var (w', l') := Walked(cfg, w, l, acts[..|acts| - 1]);
      (Stepped(cfg, w', acts[|acts| - 1]), NextLedger(cfg, w', l', acts[|acts| - 1]))
  }

  ghost predicate PossibleRun(cfg: Config, w: World, l: Ledger, acts: seq<Act>) {
    |acts| > 0 ==>
      && PossibleRun(cfg, w, l, acts[..|acts| - 1])
      && Possible(Walked(cfg, w, l, acts[..|acts| - 1]).0, acts[|acts| - 1])
  }

  // ------------------------------------------------------------------ what is kept

  /** What `open` demands of its files and key, and what the codecs are. */
  ghost predicate ConfigOk(cfg: Config) {
    GenesisOk(cfg.genesis) && cfg.key.cert == cfg.genesis.serverCert && Good(cfg.frames) && Good(cfg.entries)
  }

  /** The refusals verify against this state, and the server signed them itself. */
  ghost predicate RefusalsHold(cfg: Config, st: FlockState, es: seq<RefusalEntry>) {
    && VerifyChain(es, GenesisId(cfg.genesis), cfg.genesis.serverCert.key, st.chain.epoch, AdmittedCount(st)).Ok?
    && forall i {:trigger es[i]} :: 0 <= i < |es| ==> es[i].sig.author == cfg.genesis.serverCert
  }

  ghost predicate ReceiptHonoured(st: FlockState, r: (Id, nat)) {
    r.0 in st.board.entries && st.board.entries[r.0].index == r.1
  }

  /** The ledger alone: everything told verifies from genesis, and so does everything told
      plus what is in flight; and every receipt is for an event in it. */
  ghost predicate Honest(cfg: Config, l: Ledger) {
    && AllFit(cfg.frames, l.frames) && AllFit(cfg.frames, l.frames + l.more) && |l.more| <= 1
    && AllFit(cfg.entries, l.refusals) && AllFit(cfg.entries, l.refusals + l.moreRefusals) && |l.moreRefusals| <= 1
    && Rebuilt(cfg.genesis, l.frames).Ok? && Rebuilt(cfg.genesis, l.frames + l.more).Ok?
    && RefusalsHold(cfg, Rebuilt(cfg.genesis, l.frames).value, l.refusals + l.moreRefusals)
    && forall r {:trigger ReceiptHonoured(Rebuilt(cfg.genesis, l.frames).value, r)} ::
         r in l.receipts ==> ReceiptHonoured(Rebuilt(cfg.genesis, l.frames).value, r)
  }

  /** Both files hold the ledger, durably. */
  ghost predicate OnDisk(cfg: Config, w: World, l: Ledger)
    requires Honest(cfg, l)
  {
    InFlight(cfg.frames, LogOf(w), l.frames, l.more) && InFlight(cfg.entries, RefusalLogOf(w), l.refusals, l.moreRefusals)
  }

  /** A running server holds exactly the ledger; one that still writes has nothing in flight. */
  ghost predicate Serves(cfg: Config, sv: ServerState, l: Ledger)
    requires Honest(cfg, l)
  {
    && Rebuilt(cfg.genesis, l.frames) == Ok(sv.st)
    && sv.journal == Republished(cfg.genesis, l.frames)
    && sv.refusals == l.refusals
    && var chain := VerifyChain(l.refusals, GenesisId(cfg.genesis), cfg.genesis.serverCert.key, sv.st.chain.epoch, AdmittedCount(sv.st));
    && chain.Ok? && chain.value.prev == sv.refusalPrev
    && (!sv.poisoned ==>
          && l.more == [] && l.moreRefusals == []
          && Settled(cfg.frames, sv.log, l.frames) && Settled(cfg.entries, sv.refusalLog, l.refusals))
  }

  ghost predicate Kept(cfg: Config, w: World, l: Ledger) {
    Honest(cfg, l) && OnDisk(cfg, w, l) && (w.Up? ==> Serves(cfg, w.sv, l))
  }

  // ------------------------------------------------------------------ frames keep what was promised

  lemma {:induction false} SoundTail(st: FlockState, g: Genesis, f: Frame, i: nat)
    requires i <= |f| && Sound(st, g) && ReplayedFrom(st, f, i).Ok?
    ensures
      var st' := ReplayedFrom(st, f, i).value;
      && Sound(st', g) && AdmittedCount(st) <= AdmittedCount(st')
      && forall r {:trigger ReceiptHonoured(st', r)} :: ReceiptHonoured(st, r) ==> ReceiptHonoured(st', r)
    decreases |f| - i
  {
    hide Replayed, Sound, DropsMember;
    if i < |f| {
      SoundReplay(st, g, f[i]);
      ReplayAdvances(st, f[i]);
      var mid := Replayed(st, f[i]).value;
      forall r | ReceiptHonoured(st, r)
        ensures ReceiptHonoured(mid, r)
      {
        EntryStays(st, g, f[i], r.0);
      }
      SoundTail(mid, g, f, i + 1);
    }
  }

  lemma SoundFrame(st: FlockState, g: Genesis, f: Frame)
    requires Sound(st, g) && FrameTaken(st, f).Ok?
    ensures
      var st' := FrameTaken(st, f).value;
      && Sound(st', g) && AdmittedCount(st) <= AdmittedCount(st')
      && forall r {:trigger ReceiptHonoured(st', r)} :: ReceiptHonoured(st, r) ==> ReceiptHonoured(st', r)
  {
    hide ReplayedFrom, Sound, FrameShape;
    SoundTail(st, g, f, 0);
  }

  lemma {:induction false} SoundRebuilt(g: Genesis, frames: seq<Frame>)
    requires GenesisOk(g) && Rebuilt(g, frames).Ok?
    ensures Sound(Rebuilt(g, frames).value, g)
  {
    hide FrameTaken, Inv, GenesisOk;
    if |frames| == 0 {
      InvAtStart(g);
      KeyedAtStart(g);
    } else {
      SoundRebuilt(g, frames[..|frames| - 1]);
      SoundFrame(Rebuilt(g, frames[..|frames| - 1]).value, g, frames[|frames| - 1]);
    }
  }

  lemma KeyedAtStart(g: Genesis)
    requires Start(g).Ok?
    ensures ServerKeyed(Start(g).value)
  {
  }

  lemma RebuiltMore(g: Genesis, frames: seq<Frame>, f: Frame)
    requires Rebuilt(g, frames).Ok?
    ensures Rebuilt(g, frames + [f]) == FrameTaken(Rebuilt(g, frames).value, f)
    ensures Rebuilt(g, frames + [f]).Ok? ==>
              Republished(g, frames + [f]) == Republished(g, frames) + [Published(f, Eligible(Rebuilt(g, frames + [f]).value))]
  {
    hide FrameTaken, Eligible;
    assert (frames + [f])[..|frames|] == frames;
  }

  lemma {:induction false} RepublishedFrames(g: Genesis, frames: seq<Frame>)
    requires Rebuilt(g, frames).Ok?
    ensures FramesOf(Republished(g, frames)) == frames
  {
    hide FrameTaken, Eligible;
    if |frames| > 0 {
      RepublishedFrames(g, frames[..|frames| - 1]);
      assert FramesOf(Republished(g, frames)) == FramesOf(Republished(g, frames[..|frames| - 1])) + [frames[|frames| - 1]];
    }
  }

  // ------------------------------------------------------------------ refusals keep verifying

  /** Refusals that verified keep verifying as the log grows. */
  lemma RefusalsStay(cfg: Config, st: FlockState, st': FlockState, es: seq<RefusalEntry>)
    requires RefusalsHold(cfg, st, es) && AdmittedCount(st) <= AdmittedCount(st') && Sound(st', cfg.genesis)
    ensures RefusalsHold(cfg, st', es)
    ensures
      var g := cfg.genesis;
      VerifyChain(es, GenesisId(g), g.serverCert.key, st'.chain.epoch, AdmittedCount(st'))
      == VerifyChain(es, GenesisId(g), g.serverCert.key, st.chain.epoch, AdmittedCount(st))
  {
    hide VerifyChain, VerifyAt, BoardInv, ChainOk, RowsOk, InvitesSpentOnce, ApprovalsSpentOnce, LinesOk, ResumesKept, ServerKeyed;
    var g := cfg.genesis;
    ChainKeepsVerifying(es, GenesisId(g), g.serverCert.key, st.chain.epoch, st'.chain.epoch,
                        AdmittedCount(st), AdmittedCount(st'), g.serverCert);
  }

  /** A fresh refusal extends the chain. */
  lemma RefusalExtends(cfg: Config, st: FlockState, es: seq<RefusalEntry>, rec: RefusalRecord)
    requires cfg.key.cert == cfg.genesis.serverCert && Sound(st, cfg.genesis) && RefusalsHold(cfg, st, es)
    requires rec.admitted == AdmittedCount(st)
    ensures
      var g := cfg.genesis;
      var tip := VerifyChain(es, GenesisId(g), g.serverCert.key, st.chain.epoch, AdmittedCount(st)).value;
      var e := SignRefusal(cfg.key, tip.prev, rec);
      && RefusalsHold(cfg, st, es + [e])
      && VerifyChain(es + [e], GenesisId(g), g.serverCert.key, st.chain.epoch, AdmittedCount(st))
         == Ok(Tip(RefusalId(e.record), rec.admitted))
  {
    hide VerifyAt, BoardInv, RowsOk, InvitesSpentOnce, ApprovalsSpentOnce, LinesOk, ResumesKept, ServerKeyed;
    var g := cfg.genesis;
    var tip := VerifyChain(es, GenesisId(g), g.serverCert.key, st.chain.epoch, AdmittedCount(st)).value;
    var e := SignRefusal(cfg.key, tip.prev, rec);
    ChainCounts(es, GenesisId(g), g.serverCert.key, st.chain.epoch, AdmittedCount(st));
    assert (es + [e])[..|es + [e]| - 1] == es;
    assert RootAgent(g.serverCert) == g.serverCert.key;
  }
}

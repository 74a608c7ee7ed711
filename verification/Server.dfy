/** The server itself: its state, its two logs, its journal, its challenges. */
module ServerClass {
  import opened Results
  import opened Schema
  import opened SessionModel
  import opened StateModel
  import opened RefusalChain
  import opened Codec
  import opened LogModel
  import opened ServerModel
  import opened JournalModel
  import opened EntryModel

  class Server {
    const cfg: Config
    var st: State
    const log: Log<Frame>
    const refusalLog: Log<RefusalEntry>
    var refusals: seq<RefusalEntry>
    var refusalPrev: Id
    var challenges: Desk
    var poisoned: bool
    const journal: Journal

    ghost function Repr(): set<object>
      reads this
    {
      {this, log, log.file, refusalLog, refusalLog.file, journal} + st.Repr
    }

    ghost predicate Apart()
      reads this
    {
      && this !in st.Repr && log !in st.Repr && refusalLog !in st.Repr && journal !in st.Repr
      && log.file !in st.Repr && refusalLog.file !in st.Repr
      && log.file != refusalLog.file
    }

    /** A server that still writes appends at the end of both files. */
    ghost predicate Valid()
      reads this, st, log, log.file, refusalLog, refusalLog.file
    {
      && st.Valid() && Apart()
      && log.codec == cfg.frames && refusalLog.codec == cfg.entries && Good(cfg.frames) && Good(cfg.entries)
      && log.Valid() && refusalLog.Valid()
      && (!poisoned ==> log.end == |log.file.visible| && refusalLog.end == |refusalLog.file.visible|)
    }

    ghost function View(): ServerState
      reads this, st.board, st.chain, st.sessions, log.file, refusalLog.file, journal
    {
      ServerState(st.View(), log.file.View(), refusalLog.file.View(), refusals, refusalPrev, poisoned, journal.frames)
    }

    constructor (
      cfg: Config, st: State, log: Log<Frame>, refusalLog: Log<RefusalEntry>, refusals: seq<RefusalEntry>, refusalPrev: Id,
      journal: Journal)
      ensures this.cfg == cfg && this.st == st && this.log == log && this.refusalLog == refusalLog && this.journal == journal
      ensures this.refusals == refusals && this.refusalPrev == refusalPrev && challenges == map[] && !poisoned
    {
      this.cfg, this.st, this.log, this.refusalLog := cfg, st, log, refusalLog;
      this.refusals, this.refusalPrev, this.challenges, this.poisoned, this.journal := refusals, refusalPrev, map[], false, journal;
    }

    method Now() returns (v: FlockState)
      ensures v == View().st
    {
      return st.Snapshot();
    }

    // ---------------------------------------------------------------- writing

    /** One frame, one fsync; any failure stops the server for good. */
    method Append(frame: Frame) returns (failed: Option<LogError>)
      requires Valid() && !View().poisoned
      modifies this`poisoned, log, log.file
      ensures Valid() && poisoned == failed.Some?
      ensures !Fits(cfg.frames, frame) ==> failed == Some(TooLong) && log.file.View() == old(log.file.View())
      ensures Fits(cfg.frames, frame) ==>
                && failed == (if old(log.plan).Some? then Some(Io) else None)
                && log.file.View() == Appended(old(log.file.View()), |old(log.file.visible)|, Encoded(cfg.frames, frame), old(log.plan))
    {
      hide Good, Encoded, Fits;
      var r := log.Append(frame);
      if r.Err? {
        poisoned := true;
        return Some(r.error);
      }
      return None;
    }

    /** Append, then hold the new state, then publish. */
    method Save(frame: Frame, next: State) returns (failed: Option<LogError>)
      requires Valid() && !View().poisoned && next.Valid() && next.Repr !! Repr()
      modifies this, log, log.file, journal
      ensures Valid()
      ensures (View(), failed) == Saved(cfg, old(View()), frame, old(next.View()), old(log.plan))
      ensures refusalLog.plan == old(refusalLog.plan) && challenges == old(challenges)
      ensures st == old(st) || st == next
    {
      hide Good, Encoded, Fits, Appended, Eligible;
      failed := Append(frame);
      if failed.Some? {
        return;
      }
      st := next;
      journal.Publish(frame, Eligible(st.Snapshot()));
    }

    method SignedRefusal(node: EventNode, why: Refusal) returns (entry: RefusalEntry)
      ensures entry == RefusalOf(cfg, View(), node, why)
    {
      var admitted := AdmittedCount(st.Snapshot());
      entry := SignRefusal(cfg.key, refusalPrev, RefusalRecord(EventId(node), node.payload.author, why, admitted));
    }

    /** Append a signed refusal to the refusal log; the chain moves on only if that succeeds. */
    method RecordRefusal(node: EventNode, why: Refusal) returns (failed: Option<LogError>)
      requires Valid() && !View().poisoned
      modifies this`poisoned, this`refusals, this`refusalPrev, refusalLog, refusalLog.file
      ensures Valid()
      ensures (View(), failed) == Journaled(cfg, old(View()), RefusalOf(cfg, old(View()), node, why), old(refusalLog.plan))
      ensures log.plan == old(log.plan)
    {
      hide Good, Encoded, Fits, Appended, RefusalOf;
      var entry := SignedRefusal(node, why);
      var r := refusalLog.Append(entry);
      if r.Err? {
        poisoned := true;
        return Some(r.error);
      }
      refusalPrev := RefusalId(entry.record);
      refusals := refusals + [entry];
      return None;
    }

    // ---------------------------------------------------------------- transactions

    /** What `AdmitStep` says: a known event is answered from the board, any other is decided
        and the decision carried out. */
    method Admit(node: EventNode, sig: Assertion) returns (r: Result<Receipt, ServerError>)
      requires Valid()
      modifies Repr()
      ensures Valid()
      ensures (View(), r) == AdmitStep(cfg, old(View()), node, sig, old(log.plan), old(refusalLog.plan))
    {
      hide Good, Saved, Journaled, RefusalOf, Prepare, DecidedOn;
      if poisoned {
        return Err(PoisonedServer);
      }
      var v := st.Snapshot();
      if EventId(node) in v.board.entries {
        return Ok(Receipt(v.board.entries[EventId(node)].index, true, None));
      }
      if node.payload.kind.SessionEnd? || node.payload.kind.Handoff? {
        return Err(ShrinkAlone);
      }
      var prepared := Prepare(v, cfg.key, node, sig);
      if prepared.Ok? {
        r := TakeIn(node, prepared.value);
      } else if prepared.error.Refused? {
        r := Refuse(node, prepared.error.refusal);
      } else {
        r := Err(Rejected(prepared.error));
      }
    }

    /** Seal what passed every check into a frame, against a copy of the state; a roster
        that drops a member with its bump. */
    method Weigh(p: Prepared) returns (d: Decision, next: State?)
      ensures d == DecidedOn(cfg, View().st, p) && !d.Known?
      ensures d.Takes? ==> next != null && fresh(next) && fresh(next.Repr) && next.Valid() && next.View() == d.next
    {
      hide View, Prepare, Built, Taken, DropsMember;
      if !cfg.fits([p.sealed]) {
        return Journals(TooLarge), null;
      }
      var before := Now();
      next := new State(before);
      next.Commit(p);
      var frame := [p.sealed];
      if p.sealed.event.payload.kind.Roster? && DropsMember(before.board.members, next.board.members) {
        var bump := Bump(next);
        if bump.Err? {
          return Refuses(Rejected(bump.error)), next;
        }
        frame := frame + [bump.value];
        if !cfg.fits(frame) {
          return Journals(TooLarge), next;
        }
      }
      d := Takes(frame, next.Snapshot(), p.sealed.record.payload.index, p.conflict);
    }

    method TakeIn(node: EventNode, p: Prepared) returns (r: Result<Receipt, ServerError>)
      requires Valid() && !View().poisoned
      modifies Repr()
      ensures Valid()
      ensures (View(), r) == CarriedOut(cfg, old(View()), node, DecidedOn(cfg, old(View()).st, p), old(log.plan), old(refusalLog.plan))
    {
      hide Valid, View, Saved, Journaled, DecidedOn, RefusalOf;
      var d, next := Weigh(p);
      if d.Refuses? {
        return Err(d.error);
      }
      if d.Journals? {
        r := Refuse(node, d.refusal);
        return;
      }
      var failed := Save(d.frame, next);
      return if failed.Some? then Err(Unsaved(failed.value)) else Ok(Receipt(d.index, false, d.conflict));
    }

    method Refuse(node: EventNode, why: Refusal) returns (r: Result<Receipt, ServerError>)
      requires Valid() && !View().poisoned
      modifies this`poisoned, this`refusals, this`refusalPrev, refusalLog, refusalLog.file
      ensures Valid()
      ensures (View(), r) == CarriedOut(cfg, old(View()), node, Journals(why), old(log.plan), old(refusalLog.plan))
    {
      hide Journaled, RefusalOf, Good;
      var failed := RecordRefusal(node, why);
      return if failed.Some? then Err(Unsaved(failed.value)) else Err(Rejected(Refused(why)));
    }

    /** The epoch bump after whatever `next` holds, taken into it. */
    method Bump(next: State) returns (r: Result<Sealed, StateError>)
      requires next.Valid()
      modifies next.Repr
      ensures
        var built := Built(cfg, old(next.View()), [BumpSpec(old(next.View()))]);
        && (r.Ok? <==> built.Ok?)
        && (r.Ok? ==> built.value == ([r.value], next.View()))
        && (r.Err? ==> r.error == built.error)
    {
      hide Prepare, Taken;
      var v := next.Snapshot();
      var spec := BumpSpec(v);
      assert [spec][..0] == [];
      assert Built(cfg, v, [spec][..0]) == Ok(([], v));
      var (node, sig) := ServerEvent(v, cfg.key, spec.kind, spec.refs, spec.body);
      var p := Prepare(v, cfg.key, node, sig);
      if p.Err? {
        return Err(p.error);
      }
      next.Commit(p.value);
      assert [] + [p.value.sealed] == [p.value.sealed];
      return Ok(p.value.sealed);
    }

    /** The transaction's frame, built on a copy of the state, which is left as the frame
        leaves it. */
    method Build(specs: seq<Spec>) returns (r: Result<Frame, StateError>, next: State)
      ensures
        match Built(cfg, View().st, specs)
        case Err(e) => r == Err(e)
        case Ok((frame, after)) => r == Ok(frame) && fresh(next) && fresh(next.Repr) && next.Valid() && next.View() == after
    {
      hide View, Prepare, Taken, ServerEvent, Built;
      var start := Now();
      BuiltNone(cfg, start, specs);
      next := new State(start);
      var sealed: seq<Sealed> := [];
      for i := 0 to |specs|
        invariant next.Valid() && fresh(next) && fresh(next.Repr)
        invariant Built(cfg, start, specs[..i]) == Ok((sealed, next.View()))
        modifies next.Repr
      {
        BuiltNext(cfg, start, specs, i);
        var v := next.Snapshot();
        var (node, sig) := ServerEvent(v, cfg.key, specs[i].kind, specs[i].refs, specs[i].body);
        var p := Prepare(v, cfg.key, node, sig);
        if p.Err? {
          BuildFailureSticks(cfg, start, specs, i + 1);
          return Err(p.error), next;
        }
        next.Commit(p.value);
        sealed := sealed + [p.value.sealed];
      }
      assert specs[..|specs|] == specs;
      return Ok(sealed), next;
    }

    /** One transaction, one frame, one fsync; a failure leaves the state as it was. */
    method Transact(specs: seq<Spec>) returns (r: Result<seq<Id>, ServerError>)
      requires Valid()
      modifies Repr()
      ensures Valid() && challenges == old(challenges)
      ensures (View(), r) == TransactStep(cfg, old(View()), specs, old(log.plan))
    {
      hide Valid, Saved, Built;
      if poisoned {
        return Err(PoisonedServer);
      }
      var built, next := Build(specs);
      if built.Err? {
        return Err(Rejected(built.error));
      }
      if !cfg.fits(built.value) {
        return Err(CannotDeliver);
      }
      var failed := Save(built.value, next);
      return if failed.Some? then Err(Unsaved(failed.value)) else Ok(IdsOf(built.value));
    }

    // ---------------------------------------------------------------- entry points

    /** Any call that makes the server author events. */
    method Perform(c: Call) returns (r: Result<seq<Id>, ServerError>)
      requires Valid()
      modifies Repr()
      ensures Valid() && challenges == old(challenges)
      ensures (View(), r) == CallStep(cfg, old(View()), c, old(log.plan))
    {
      hide Good, SpecsOf, TransactStep;
      var specs := SpecsOf(st.Snapshot(), c);
      if specs.Err? {
        return Err(specs.error);
      }
      r := Transact(specs.value);
    }

    method Challenged(pubkey: Key, purpose: Purpose, nonce: nat) returns (c: Challenge)
      modifies this`challenges
      ensures c == Challenge(cfg.key.cert.key, pubkey, nonce) && challenges == Issued(old(challenges), c, purpose)
    {
      c := Challenge(cfg.key.cert.key, pubkey, nonce);
      challenges := challenges[nonce := Held(c, purpose)];
    }

    method Redeem(c: Challenge) returns (r: Result<Purpose, EntryError>)
      modifies this`challenges
      ensures (challenges, r) == TakenFrom(old(challenges), c)
    {
      var held := challenges;
      challenges := challenges - {c.nonce};
      if c.nonce in held && held[c.nonce].challenge == c {
        return Ok(held[c.nonce].purpose);
      }
      return Err(NotIssuedOrUsed);
    }

    method BeginEnrollment(token: Id, member: string, pubkey: Key, nonce: nat) returns (r: Result<Challenge, EntryError>)
      requires Valid()
      modifies this`challenges
      ensures Valid() && View() == old(View())
      ensures
        match EnrollBegun(View().st, token, member, pubkey)
        case Err(e) => r == Err(e) && challenges == old(challenges)
        case Ok(purpose) =>
          && r == Ok(Challenge(cfg.key.cert.key, pubkey, nonce))
          && challenges == Issued(old(challenges), r.value, purpose)
    {
      hide Good, EnrollBegun;
      var begun := EnrollBegun(st.Snapshot(), token, member, pubkey);
      if begun.Err? {
        return Err(begun.error);
      }
      var c := Challenged(pubkey, begun.value, nonce);
      return Ok(c);
    }

    /** The challenge is spent whatever happens; the session starts only on a proof of
        possession, under a certificate minted for the current epoch. */
    method FinishEnrollment(c: Challenge, proof: Sig) returns (r: Result<Enrolled, EntryError>)
      requires Valid()
      modifies Repr()
      ensures Valid() && challenges == TakenFrom(old(challenges), c).0
      ensures
        match EnrollFinished(cfg, old(View()).st, TakenFrom(old(challenges), c).1, c, proof)
        case Err(e) => r == Err(e) && View() == old(View())
        case Ok((call, cert)) =>
          var (sv, done) := CallStep(cfg, old(View()), call, old(log.plan));
          && View() == sv
          && r == if done.Err? then Err(CallFailed(done.error)) else Ok(EnrolledAs(sv.st, cert))
    {
      hide Good, CallStep, Certified;
      var purpose := Redeem(c);
      var finish := EnrollFinished(cfg, st.Snapshot(), purpose, c, proof);
      if finish.Err? {
        return Err(finish.error);
      }
      var done := Perform(finish.value.0);
      if done.Err? {
        return Err(CallFailed(done.error));
      }
      var cert := finish.value.1;
      var table := st.sessions.View().sessions;
      return Ok(Enrolled(cert.key, cert, cert.key in table && table[cert.key].status == Pending));
    }

    method BeginRenewal(last: Cert, nonce: nat) returns (r: Result<Challenge, EntryError>)
      requires Valid()
      modifies this`challenges
      ensures Valid() && View() == old(View())
      ensures
        match RenewBegun(View().st, last)
        case Err(e) => r == Err(e) && challenges == old(challenges)
        case Ok(purpose) =>
          && last.key in View().st.sessions.sessions
          && r == Ok(Challenge(cfg.key.cert.key, View().st.sessions.sessions[last.key].pubkey, nonce))
          && challenges == Issued(old(challenges), r.value, purpose)
    {
      hide Good;
      var v := st.Snapshot();
      var begun := RenewBegun(v, last);
      if begun.Err? {
        return Err(begun.error);
      }
      var c := Challenged(v.sessions.sessions[last.key].pubkey, begun.value, nonce);
      return Ok(c);
    }

    method FinishRenewal(c: Challenge, proof: Sig) returns (r: Result<Cert, EntryError>)
      requires Valid()
      modifies Repr()
      ensures Valid() && challenges == TakenFrom(old(challenges), c).0
      ensures
        match RenewFinished(cfg, old(View()).st, TakenFrom(old(challenges), c).1, c, proof)
        case Err(e) => r == Err(e) && View() == old(View())
        case Ok((call, cert)) =>
          var (sv, done) := CallStep(cfg, old(View()), call, old(log.plan));
          View() == sv && r == if done.Err? then Err(CallFailed(done.error)) else Ok(cert)
    {
      hide Good, CallStep, Certified;
      var purpose := Redeem(c);
      var finish := RenewFinished(cfg, st.Snapshot(), purpose, c, proof);
      if finish.Err? {
        return Err(finish.error);
      }
      var done := Perform(finish.value.0);
      return if done.Err? then Err(CallFailed(done.error)) else Ok(finish.value.1);
    }
  }

  /** What enrolling tells the session: its name, its certificate, whether it must wait for a
      hand-off. */
  datatype Enrolled = Enrolled(session: string, cert: Cert, pending: bool)

  function EnrolledAs(st: FlockState, cert: Cert): Enrolled {
    Enrolled(cert.key, cert, cert.key in st.sessions.sessions && st.sessions.sessions[cert.key].status == Pending)
  }

  /** The call an answered enrolment challenge makes, and the certificate it mints. */
  function EnrollFinished(cfg: Config, st: FlockState, taken: Result<Purpose, EntryError>, c: Challenge, proof: Sig)
    : Result<(Call, Cert), EntryError>
  {
    var purpose :- taken;
    if !purpose.ForEnrollment? then Err(WrongPurpose)
    else
      var cert :- Certified(cfg.key, c, proof, purpose.member, st.chain.epoch);
      Ok((Enroll(purpose.invite, purpose.member, cert), cert))
  }

  function RenewFinished(cfg: Config, st: FlockState, taken: Result<Purpose, EntryError>, c: Challenge, proof: Sig)
    : Result<(Call, Cert), EntryError>
  {
    var purpose :- taken;
    if !purpose.ForRenewal? then Err(WrongPurpose)
    else if purpose.epoch != st.chain.epoch then Err(EpochMoved)
    else if !Live(st.sessions, purpose.session) then Err(NotLiveNow)
    else
      var cert :- Certified(cfg.key, c, proof, st.sessions.sessions[purpose.session].member, st.chain.epoch);
      Ok((Renew(purpose.session, cert), cert))
  }

  lemma BuiltNone(cfg: Config, st: FlockState, specs: seq<Spec>)
    ensures Built(cfg, st, specs[..0]) == Ok(([], st))
  {
  }

  /** One more event of a transaction. */
  lemma BuiltNext(cfg: Config, st: FlockState, specs: seq<Spec>, i: nat)
    requires i < |specs| && Built(cfg, st, specs[..i]).Ok?
    ensures
      var (f, next) := Built(cfg, st, specs[..i]).value;
      var (node, sig) := ServerEvent(next, cfg.key, specs[i].kind, specs[i].refs, specs[i].body);
      Built(cfg, st, specs[..i + 1])
      == match Prepare(next, cfg.key, node, sig)
         case Err(e) => Err(e)
         case Ok(p) => Ok((f + [p.sealed], Committed(next, p)))
  {
    hide Prepare, Taken, ServerEvent;
    assert specs[..i + 1][..i] == specs[..i];
  }

  lemma {:induction false} BuildFailureSticks(cfg: Config, st: FlockState, specs: seq<Spec>, n: nat)
    requires n <= |specs| && Built(cfg, st, specs[..n]).Err?
    ensures Built(cfg, st, specs) == Built(cfg, st, specs[..n])
    decreases |specs| - n
  {
    hide Prepare, Taken;
    if n < |specs| {
      assert specs[..n + 1][..n] == specs[..n];
      BuildFailureSticks(cfg, st, specs, n + 1);
    } else {
      assert specs[..n] == specs;
    }
  }

  // ------------------------------------------------------------------ opening

  /** Replay the retained frames from genesis, noting after each who is eligible. */
  method RebuildPublished(g: Genesis, frames: seq<Frame>) returns (st: State?, published: seq<Published>, error: Option<StateError>)
    ensures error.None? ==>
              && st != null && st.Valid() && fresh(st) && fresh(st.Repr)
              && Rebuilt(g, frames) == Ok(st.View()) && published == Republished(g, frames)
    ensures error.Some? ==> Rebuilt(g, frames) == Err(error.value)
  {
    hide FrameTaken, Eligible;
    published := [];
    var start := Start(g);
    if start.Err? {
      RebuildFailureSticks(g, frames, 0);
      return null, [], Some(start.error);
    }
    var s := new State(start.value);
    for i := 0 to |frames|
      invariant s.Valid() && fresh(s) && fresh(s.Repr)
      invariant Rebuilt(g, frames[..i]) == Ok(s.View())
      invariant published == Republished(g, frames[..i])
    {
      assert frames[..i + 1][..i] == frames[..i];
      ghost var before := s.View();
      var r := s.TakeFrame(frames[i]);
      assert Rebuilt(g, frames[..i + 1]) == FrameTaken(before, frames[i]);
      if r.Err? {
        RebuildFailureSticks(g, frames, i + 1);
        return null, [], Some(r.error);
      }
      published := published + [Published(frames[i], Eligible(s.Snapshot()))];
    }
    assert frames[..|frames|] == frames;
    return s, published, None;
  }

  method VerifyRetained(cfg: Config, frames: seq<Frame>, entries: seq<RefusalEntry>)
    returns (st: State?, published: seq<Published>, prev: Id, error: Option<OpenError>)
    ensures
      match Retained(cfg, frames, entries)
      case Err(e) => error == Some(e)
      case Ok((v, p)) =>
        && error.None? && st != null && st.Valid() && fresh(st) && fresh(st.Repr)
        && Rebuilt(cfg.genesis, frames) == Ok(v) && st.View() == v && prev == p && published == Republished(cfg.genesis, frames)
  {
    hide Rebuilt, VerifyChain, Republished;
    prev := RawId(0);
    var failed;
    st, published, failed := RebuildPublished(cfg.genesis, frames);
    if failed.Some? {
      error := Some(BadHistory(failed.value));
      return;
    }
    var v := st.Snapshot();
    var tip := VerifyEntries(entries, v.board.flock, v.chain.serverPub, v.chain.epoch, AdmittedCount(v));
    if tip.Err? {
      error := Some(BadRefusals(tip.error));
      return;
    }
    prev, error := tip.value.prev, None;
  }

  /** Recover one file, then the other, as far as `dies` lets it. */
  method RecoverBoth(log: Log<Frame>, refusalLog: Log<RefusalEntry>, dies: Option<RecoveryPoint>) returns (ok: bool)
    requires log.Valid() && refusalLog.Valid() && log.file != refusalLog.file
    requires if log.cut.None? then log.end == |log.file.visible| else log.cut == Some(log.end)
    requires if refusalLog.cut.None? then refusalLog.end == |refusalLog.file.visible| else refusalLog.cut == Some(refusalLog.end)
    modifies log, log.file, refusalLog, refusalLog.file
    ensures ok <==> dies.None?
    ensures
      var (d, r) := (old(log.file.View()), old(refusalLog.file.View()));
      var (d', r') := (Recovered(d, old(log.cut)), Recovered(r, old(refusalLog.cut)));
      match dies
      case None =>
        && log.file.View() == d' && refusalLog.file.View() == r' && log.Valid() && refusalLog.Valid()
        && log.end == |log.file.visible| && refusalLog.end == |refusalLog.file.visible|
      case Some(Untouched) => log.file.View() == d && refusalLog.file.View() == r
      case Some(LogCut) => log.file.View() == CutOnly(d, d') && refusalLog.file.View() == r
      case Some(LogSynced) => log.file.View() == d' && refusalLog.file.View() == r
      case Some(RefusalsCut) => log.file.View() == d' && refusalLog.file.View() == CutOnly(r, r')
  {
    var fault, fault': Option<RecoveryFault> := None, None;
    if dies.Some? {
      match dies.value {
        case Untouched => fault := Some(AtFirst);
        case LogCut => fault := Some(AtSync);
        case LogSynced => fault' := Some(AtFirst);
        case RefusalsCut => fault' := Some(AtSync);
      }
    }
    ok := log.CommitRecovery(fault);
    if ok {
      ok := refusalLog.CommitRecovery(fault');
    }
  }

  /** A running server on what both files hold, if all of it verifies; the files change only
      after that, the log's before the refusals'. `dies` says where changing them fails, if
      it does. */
  method Open(cfg: Config, logFile: File, refusalFile: File, dies: Option<RecoveryPoint>)
    returns (server: Server?, error: Option<OpenError>)
    requires Good(cfg.frames) && Good(cfg.entries) && logFile != refusalFile
    modifies logFile, refusalFile
    ensures
      match Opened(cfg, old(logFile.View()), old(refusalFile.View()))
      case Ok(sv) =>
        if dies.None? then
          && error.None? && server != null && fresh(server) && server.cfg == cfg && server.Valid()
          && server.log.file == logFile && server.refusalLog.file == refusalFile
          && server.challenges == map[] && server.View() == sv
        else
          && error == Some(RecoveryFailed) && server == null
          && (logFile.View(), refusalFile.View()) == LeftBy(old(logFile.View()), old(refusalFile.View()), sv, dies.value)
      case Err(e) =>
        && error == Some(e) && server == null
        && logFile.View() == old(logFile.View()) && refusalFile.View() == old(refusalFile.View())
  {
    hide Good, Rebuilt, VerifyChain, Republished, ParsedFrom, Values, Server.Valid, Server.View;
    var log, frames, corrupt := Log.Open(cfg.frames, logFile);
    if corrupt.Some? {
      return null, Some(DamagedLog(corrupt.value));
    }
    var refusalLog, entries, corrupt' := Log.Open(cfg.entries, refusalFile);
    if corrupt'.Some? {
      return null, Some(DamagedRefusals(corrupt'.value));
    }
    var st, published, prev, bad := VerifyRetained(cfg, Values(frames), Values(entries));
    if bad.Some? {
      return null, bad;
    }
    var ok := RecoverBoth(log, refusalLog, dies);
    if !ok {
      return null, Some(RecoveryFailed);
    }
    server := Assembled(cfg, st, log, refusalLog, Values(entries), prev, published);
    return server, None;
  }

  /** A server over a state and two recovered logs. */
  method Assembled(
    cfg: Config, st: State, log: Log<Frame>, refusalLog: Log<RefusalEntry>, entries: seq<RefusalEntry>, prev: Id,
    published: seq<Published>)
    returns (server: Server)
    requires st.Valid() && log.Valid() && refusalLog.Valid() && log.file != refusalLog.file
    requires log.codec == cfg.frames && refusalLog.codec == cfg.entries && Good(cfg.frames) && Good(cfg.entries)
    requires log !in st.Repr && refusalLog !in st.Repr && log.file !in st.Repr && refusalLog.file !in st.Repr
    requires log.end == |log.file.visible| && refusalLog.end == |refusalLog.file.visible|
    ensures fresh(server) && server.cfg == cfg && server.Valid() && server.challenges == map[]
    ensures server.log == log && server.refusalLog == refusalLog
    ensures server.View() == ServerState(st.View(), log.file.View(), refusalLog.file.View(), entries, prev, false, published)
  {
    hide Good;
    var journal := new Journal(published);
    server := new Server(cfg, st, log, refusalLog, entries, prev, journal);
  }
}

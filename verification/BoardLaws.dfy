/** What every admitted log keeps: first closer wins, rosters stay locked and form one line. */
module BoardLaws {
  import opened Results
  import opened Schema
  import opened BoardModel
  import opened Admission
  import opened BoardFold

  // ------------------------------------------------------------------ what an admission establishes

  predicate Admitted(b: BoardState, node: EventNode, signer: Signer) {
    AdmitVerdict(b, node, signer).Admit? || AdmitVerdict(b, node, signer).Conflict?
  }

  function FlagOf(b: BoardState, node: EventNode, signer: Signer): Option<ConflictKind> {
    match AdmitVerdict(b, node, signer)
    case Conflict(kind) => Some(kind)
    case _ => None
  }

  /** The kind of event an event of this kind closes. */
  function ClosedKind(k: Kind): Option<Kind> {
    match k
    case Result => Some(Kind.Brief)
    case Verdict => Some(Kind.Review)
    case JobEnd => Some(Kind.Job)
    case Answer => Some(Kind.Ask)
    case _ => None
  }

  /** The flag the board raises for an event closing `target`. */
  function Flagged(b: BoardState, target: Option<Id>): Option<ConflictKind> {
    if target.Some? && target.value in b.closers then Some(SecondCloser(b.closers[target.value])) else None
  }

  /** On references and table alone: what the table closes is what the kind-only rule
      names, and it is on the board and of the one kind it may be. */
  lemma TableAgrees(b: BoardState, ev: Event, member: Option<string>)
    requires KindOf(ev.body) == ev.kind
    requires CheckRefs(b, ev).Ok? && ApplyTable(b, ev, member, CheckRefs(b, ev).value).Ok?
    ensures ApplyTable(b, ev, member, CheckRefs(b, ev).value).value == ClosedBy(ev)
    ensures ClosedBy(ev).Some? <==> ClosedKind(ev.kind).Some?
    ensures ClosedBy(ev).Some? ==>
              ClosedBy(ev).value in b.entries
              && Some(b.entries[ClosedBy(ev).value].event.kind) == ClosedKind(ev.kind)
  {
    hide NudgeOk, CrossesLane, ClaimOk;
    var spec := RefSpec(ev.kind);
    if ClosedKind(ev.kind).Some? {
      assert |spec| == 1 && spec[1..] == [];
      assert CheckRules(b, ev, spec[1..], CheckRef(b, ev, spec[0]).value) == Ok(CheckRef(b, ev, spec[0]).value);
      assert CheckRefs(b, ev).value == CheckRef(b, ev, spec[0]).value;
    } else if ev.kind.Nudged? || ev.kind.NudgeMisfire? {
      NudgeClosesNothing(b, ev, member, CheckRefs(b, ev).value);
    }
  }

  lemma NudgeClosesNothing(b: BoardState, ev: Event, member: Option<string>, target: Option<Id>)
    requires ev.kind.Nudged? || ev.kind.NudgeMisfire?
    requires ApplyTable(b, ev, member, target).Ok?
    ensures ApplyTable(b, ev, member, target).value.None?
  {
  }

  /** The table and the kind-only rule agree on what an admitted event closes: it is on the
      board, of the one kind it may be, and the event is flagged exactly when that target
      already has a closer, naming it. */
  lemma ClosesAgree(b: BoardState, node: EventNode, signer: Signer)
    requires Admitted(b, node, signer)
    ensures
      var target := ClosedBy(node.payload);
      && (target.Some? <==> ClosedKind(node.payload.kind).Some?)
      && (target.Some? ==>
            && target.value in b.entries
            && Some(b.entries[target.value].event.kind) == ClosedKind(node.payload.kind))
      && FlagOf(b, node, signer) == Flagged(b, target)
  {
    hide CheckRefs, ApplyTable, CheckDevices, CheckRoots, SignerMember, WriterChain, ClosedBy, ClosedKind, KindOf;
    TableAgrees(b, node.payload, SignerMember(b, node.payload.kind, signer).value);
  }

  /** The envelope of an admitted event: fresh, of this flock, its author the signer, its
      body its kind's. */
  lemma EnvelopeHolds(b: BoardState, node: EventNode, signer: Signer)
    requires Admitted(b, node, signer)
    ensures EventId(node) !in b.entries
    ensures node.payload.flock == b.flock
    ensures node.payload.author == signer.fingerprint
    ensures node.parents == ExpectedParents(node.payload)
    ensures KindOf(node.payload.body) == node.payload.kind
    ensures SignerMember(b, node.payload.kind, signer).Ok?
    ensures WriterChain(b, node.payload, signer).Ok?
    ensures CheckRefs(b, node.payload).Ok?
  {
  }

  /** A roster that gets in is well formed, replaces the current one, and leaves delegate,
      devices and roots alone unless the server signed it. */
  ghost predicate RosterStep(b: BoardState, ev: Event, signer: Signer) {
    && ev.body.RosterBody?
    && RosterWellFormed(ev.body.members) && RootsWellFormed(ev.body.roots)
    && Replaces in ev.refs && ev.refs[Replaces] == b.rosterId
    && (signer.class_.Server? || signer.class_.Session?)
    && (signer.class_.Session? ==>
          && DelegateOf(ev.body.members) == DelegateOf(b.members)
          && Bindings(ev.body.members) == Bindings(b.members)
          && AsSet(ev.body.roots) == AsSet(b.roots))
  }

  lemma RosterRules(b: BoardState, node: EventNode, signer: Signer)
    requires Admitted(b, node, signer) && node.payload.kind.Roster?
    ensures RosterStep(b, node.payload, signer)
  {
    hide WriterChain, ApplyTable, RosterWellFormed, RootsWellFormed, DelegateOf, Bindings, AsSet;
    var spec := RefSpec(node.payload.kind);
    assert spec == [RefRule(Replaces, {Kind.Roster}, true)];
    assert CheckRef(b, node.payload, spec[0]).Ok?;
  }

  // ------------------------------------------------------------------ invariants

  /** An author's head is that author's, and no later event of it than `id` is missed. */
  ghost predicate HeadCovers(b: BoardState, id: Id) {
    id in b.entries ==>
      var a := b.entries[id].event.author;
      && a in b.heads && b.heads[a] in b.entries
      && b.entries[id].index <= b.entries[b.heads[a]].index
  }

  ghost predicate HeadsLatest(b: BoardState) {
    && (forall a {:trigger b.heads[a]} :: a in b.heads ==>
          b.heads[a] in b.entries && b.entries[b.heads[a]].event.author == a)
    && (forall id {:trigger HeadCovers(b, id)} :: HeadCovers(b, id))
  }

  /** If `id` closes something, the recorded closer came no later, and `id` is flagged with
      it unless it is that closer itself. If it closes nothing it is not flagged. */
  ghost predicate CloserKept(b: BoardState, id: Id) {
    id in b.entries ==>
      match ClosedBy(b.entries[id].event)
      case None => b.entries[id].conflict.None?
      case Some(t) =>
        && t in b.closers && b.closers[t] in b.entries
        && b.entries[b.closers[t]].index <= b.entries[id].index
        && b.entries[id].conflict == if id == b.closers[t] then None else Some(SecondCloser(b.closers[t]))
  }

  /** `closers` names, for each target, the earliest event that closes it, and every other
      closer is flagged with that one. Nothing else is flagged. */
  ghost predicate FirstCloserWins(b: BoardState) {
    && (forall t {:trigger b.closers[t]} :: t in b.closers ==>
          && b.closers[t] in b.entries
          && ClosedBy(b.entries[b.closers[t]].event) == Some(t))
    && (forall id {:trigger CloserKept(b, id)} :: CloserKept(b, id))
  }

  /** What an admitted event closes is on the board and of the kind it closes; its body is
      its kind's. */
  ghost predicate TargetFits(b: BoardState, id: Id) {
    id in b.entries ==>
      var ev := b.entries[id].event;
      && KindOf(ev.body) == ev.kind
      && (ClosedBy(ev).Some? ==>
            && ClosedBy(ev).value in b.entries
            && Some(b.entries[ClosedBy(ev).value].event.kind) == ClosedKind(ev.kind))
  }

  ghost predicate TargetsFit(b: BoardState) {
    forall id {:trigger TargetFits(b, id)} :: TargetFits(b, id)
  }

  lemma RecordedConsistent(b: BoardState, node: EventNode, signer: Signer, flag: Option<ConflictKind>)
    requires Consistent(b) && EventId(node) !in b.entries
    ensures Consistent(Recorded(b, node, signer, flag))
  {
    var b' := Recorded(b, node, signer, flag);
    forall id
      ensures Filed(b', id)
    {
      assert Filed(b, id);
    }
  }

  lemma RecordedHeads(b: BoardState, node: EventNode, signer: Signer, flag: Option<ConflictKind>)
    requires Consistent(b) && HeadsLatest(b) && EventId(node) !in b.entries
    ensures HeadsLatest(Recorded(b, node, signer, flag))
  {
    var b' := Recorded(b, node, signer, flag);
    forall id
      ensures HeadCovers(b', id)
    {
      assert Filed(b, id) && HeadCovers(b, id);
    }
  }

  lemma RecordedClosers(b: BoardState, node: EventNode, signer: Signer)
    requires Consistent(b) && FirstCloserWins(b) && EventId(node) !in b.entries
    ensures FirstCloserWins(Recorded(b, node, signer, Flagged(b, ClosedBy(node.payload))))
  {
    hide ClosedBy;
    var target := ClosedBy(node.payload);
    var b' := Recorded(b, node, signer, Flagged(b, target));
    if target.Some? && target.value in b.closers {
      assert Filed(b, b.closers[target.value]);
    }
    forall id
      ensures CloserKept(b', id)
    {
      assert CloserKept(b, id);
    }
  }

  lemma RecordedTargets(b: BoardState, node: EventNode, signer: Signer, flag: Option<ConflictKind>)
    requires TargetsFit(b) && EventId(node) !in b.entries
    requires KindOf(node.payload.body) == node.payload.kind
    requires ClosedBy(node.payload).Some? ==>
               && ClosedBy(node.payload).value in b.entries
               && Some(b.entries[ClosedBy(node.payload).value].event.kind) == ClosedKind(node.payload.kind)
    ensures TargetsFit(Recorded(b, node, signer, flag))
  {
    hide ClosedBy, ClosedKind, KindOf;
    var b' := Recorded(b, node, signer, flag);
    forall id
      ensures TargetFits(b', id)
    {
      assert TargetFits(b, id);
    }
  }

  // ------------------------------------------------------------------ rosters

  ghost predicate IsRosterAt(b: BoardState, i: int) {
    HasEntry(b, i) && At(b, i).event.kind.Roster? && At(b, i).event.body.RosterBody?
  }

  /** The latest roster among the first `n` events; the genesis when there is none. */
  ghost function LatestRoster(b: BoardState, n: nat): Id
    requires n <= |b.order|
  {
    if n == 0 then b.flock
    else if IsRosterAt(b, n - 1) then b.order[n - 1]
    else LatestRoster(b, n - 1)
  }

  /** The members and roots of the latest server-signed roster among the first `n` events,
      or the genesis roster and no roots. */
  ghost function Authority(b: BoardState, g: Genesis, n: nat): (seq<Member>, seq<string>)
    requires n <= |b.order|
  {
    if n == 0 then (g.roster, [])
    else if IsRosterAt(b, n - 1) && At(b, n - 1).member.None? then
      (At(b, n - 1).event.body.members, At(b, n - 1).event.body.roots)
    else Authority(b, g, n - 1)
  }

  /** Each roster replaces the one before it, back to the genesis; the last is the current. */
  ghost predicate OneRosterLine(b: BoardState) {
    && b.rosterId == LatestRoster(b, |b.order|)
    && forall i {:trigger IsRosterAt(b, i)} :: IsRosterAt(b, i) ==>
         Replaces in At(b, i).event.refs && At(b, i).event.refs[Replaces] == LatestRoster(b, i)
  }

  /** Delegate, device bindings and roots are those of the last server-signed roster. */
  ghost predicate Locked(b: BoardState, g: Genesis) {
    var (members, roots) := Authority(b, g, |b.order|);
    && DelegateOf(b.members) == DelegateOf(members)
    && Bindings(b.members) == Bindings(members)
    && AsSet(b.roots) == AsSet(roots)
  }

  /** Adding at the end changes neither history nor what was derived from it. */
  ghost predicate Extends(b: BoardState, b': BoardState) {
    && b.flock == b'.flock
    && b.order <= b'.order
    && (forall id {:trigger id in b'.entries} {:trigger id in b.entries} :: id in b.entries ==>
          id in b'.entries && b'.entries[id] == b.entries[id])
    && (forall t {:trigger t in b'.closers} {:trigger t in b.closers} :: t in b.closers ==>
          t in b'.closers && b'.closers[t] == b.closers[t])
  }

  lemma {:induction false} RosterFrame(b: BoardState, b': BoardState, g: Genesis, n: nat)
    requires Consistent(b) && Extends(b, b') && n <= |b.order|
    ensures LatestRoster(b, n) == LatestRoster(b', n)
    ensures Authority(b, g, n) == Authority(b', g, n)
  {
    if n > 0 {
      RosterFrame(b, b', g, n - 1);
      SameAt(b, b', n - 1);
    }
  }

  lemma SameAt(b: BoardState, b': BoardState, i: nat)
    requires Consistent(b) && Extends(b, b') && i < |b.order|
    ensures HasEntry(b, i) && HasEntry(b', i) && At(b, i) == At(b', i) && b.order[i] == b'.order[i]
  {
    assert b.order[i] in b.entries;
    assert b'.order[..|b.order|][i] == b.order[i];
  }

  lemma RecordedExtends(b: BoardState, node: EventNode, signer: Signer)
    requires Consistent(b) && EventId(node) !in b.entries
    ensures Extends(b, Recorded(b, node, signer, Flagged(b, ClosedBy(node.payload))))
  {
    hide ClosedBy;
  }

  lemma RecordedRosters(b: BoardState, g: Genesis, node: EventNode, signer: Signer)
    requires Consistent(b) && OneRosterLine(b) && Locked(b, g) && EventId(node) !in b.entries
    requires RosterWellFormed(b.members) && RootsWellFormed(b.roots)
    requires KindOf(node.payload.body) == node.payload.kind
    requires node.payload.kind.Roster? ==> RosterStep(b, node.payload, signer)
    ensures
      var b' := Recorded(b, node, signer, Flagged(b, ClosedBy(node.payload)));
      OneRosterLine(b') && Locked(b', g) && RosterWellFormed(b'.members) && RootsWellFormed(b'.roots)
  {
    hide RosterWellFormed, RootsWellFormed, DelegateOf, Bindings, AsSet;
    var b' := Recorded(b, node, signer, Flagged(b, ClosedBy(node.payload)));
    var n := |b.order|;
    RecordedExtends(b, node, signer);
    RosterFrame(b, b', g, n);
    assert b'.order[n] == EventId(node) && HasEntry(b', n) && At(b', n).event == node.payload;
    assert IsRosterAt(b', n) <==> node.payload.kind.Roster?;
    forall i | IsRosterAt(b', i)
      ensures Replaces in At(b', i).event.refs && At(b', i).event.refs[Replaces] == LatestRoster(b', i)
    {
      if i < n {
        SameAt(b, b', i);
        assert IsRosterAt(b, i);
        RosterFrame(b, b', g, i);
      }
    }
  }

  // ------------------------------------------------------------------ over whole runs

  ghost predicate BoardInv(b: BoardState, g: Genesis) {
    && b.flock == GenesisId(g)
    && Consistent(b) && HeadsLatest(b) && FirstCloserWins(b) && TargetsFit(b)
    && OneRosterLine(b) && Locked(b, g) && RosterWellFormed(b.members) && RootsWellFormed(b.roots)
  }

  /** What the step lemmas below need of an admission, and no more of the table. */
  lemma AdmissionFacts(b: BoardState, e: LogEntry)
    requires Admitted(b, e.node, e.signer)
    ensures EventId(e.node) !in b.entries
    ensures KindOf(e.node.payload.body) == e.node.payload.kind
    ensures e.node.payload.kind.Roster? ==> RosterStep(b, e.node.payload, e.signer)
    ensures ClosedBy(e.node.payload).Some? ==>
              && ClosedBy(e.node.payload).value in b.entries
              && Some(b.entries[ClosedBy(e.node.payload).value].event.kind) == ClosedKind(e.node.payload.kind)
    ensures Applied(b, e).0 == Recorded(b, e.node, e.signer, Flagged(b, ClosedBy(e.node.payload)))
  {
    EnvelopeHolds(b, e.node, e.signer);
    ClosesAgree(b, e.node, e.signer);
    if e.node.payload.kind.Roster? {
      RosterRules(b, e.node, e.signer);
    }
    hide Decide, RosterStep, Recorded, ClosedBy, ClosedKind, KindOf;
  }

  lemma StepKeepsBoard(b: BoardState, g: Genesis, e: LogEntry)
    requires BoardInv(b, g)
    ensures BoardInv(Applied(b, e).0, g)
    ensures Extends(b, Applied(b, e).0)
  {
    hide Decide, RosterStep, Consistent, HeadsLatest, FirstCloserWins, TargetsFit, OneRosterLine, Locked,
         RosterWellFormed, RootsWellFormed, ClosedBy, ClosedKind, KindOf, Extends;
    if Admitted(b, e.node, e.signer) {
      var flag := Flagged(b, ClosedBy(e.node.payload));
      AdmissionFacts(b, e);
      RecordedConsistent(b, e.node, e.signer, flag);
      RecordedHeads(b, e.node, e.signer, flag);
      RecordedClosers(b, e.node, e.signer);
      RecordedTargets(b, e.node, e.signer, flag);
      RecordedRosters(b, g, e.node, e.signer);
      RecordedExtends(b, e.node, e.signer);
    } else {
      ExtendsItself(b);
    }
  }

  lemma ExtendsItself(b: BoardState)
    ensures Extends(b, b)
  {
  }

  lemma ExtendsChains(b: BoardState, b': BoardState, b'': BoardState)
    requires Extends(b, b') && Extends(b', b'')
    ensures Extends(b, b'')
  {
  }

  /** From a well-formed genesis, every log whatever it holds leaves a board in which the
      first closer wins, rosters form one line, and locked fields are the server's. */
  lemma {:induction false} EveryRunKeepsBoard(g: Genesis, log: seq<LogEntry>)
    requires RosterWellFormed(g.roster)
    ensures BoardInv(Run(g, log), g)
  {
    hide Applied;
    if |log| > 0 {
      hide BoardInv;
      EveryRunKeepsBoard(g, log[..|log| - 1]);
      StepKeepsBoard(Run(g, log[..|log| - 1]), g, log[|log| - 1]);
    }
  }

  lemma {:induction false} LongerRunExtends(g: Genesis, log: seq<LogEntry>, more: seq<LogEntry>)
    requires RosterWellFormed(g.roster)
    ensures Extends(Run(g, log), Run(g, log + more))
  {
    hide Applied, Extends, BoardInv;
    if |more| == 0 {
      assert log + more == log;
      ExtendsItself(Run(g, log));
    } else {
      var init := more[..|more| - 1];
      assert (log + more)[..|log + more| - 1] == log + init;
      LongerRunExtends(g, log, init);
      EveryRunKeepsBoard(g, log + init);
      StepKeepsBoard(Run(g, log + init), g, more[|more| - 1]);
      ExtendsChains(Run(g, log), Run(g, log + init), Run(g, log + more));
    }
  }

  /** A brief is done exactly when it has a closer, with that result's outcome. */
  lemma DoneIffClosed(b: BoardState, brief: Id)
    requires FirstCloserWins(b) && TargetsFit(b)
    requires brief in b.entries && b.entries[brief].event.body.BriefBody?
    ensures Attempt(b, brief).Some?
    ensures Attempt(b, brief).value.state.Done? <==> brief in b.closers
    ensures brief in b.closers ==>
              && b.closers[brief] in b.entries && b.entries[b.closers[brief]].event.body.ResultBody?
              && Attempt(b, brief).value.state == Done(b.entries[b.closers[brief]].event.body.outcome)
  {
    hide OpenAsk, Acked, JobOpen, ConflictsOn;
    if brief in b.closers {
      var c := b.closers[brief];
      assert TargetFits(b, brief) && TargetFits(b, c);
    }
  }

  /** An admitted, unflagged, unanswered ask about the brief. */
  ghost predicate AsksAbout(b: BoardState, id: Id, brief: Id) {
    && id in b.entries && b.entries[id].event.kind.Ask? && Get(b.entries[id].event.refs, About) == Some(brief)
    && b.entries[id].conflict.None? && id !in b.closers
  }

  ghost predicate Acks(b: BoardState, id: Id, brief: Id) {
    id in b.entries && b.entries[id].event.kind.Ack? && Get(b.entries[id].event.refs, OfRef) == Some(brief)
  }

  lemma ScansFindEntries(b: BoardState, brief: Id)
    requires Consistent(b)
    ensures OpenAsk(b, brief) <==> exists id :: AsksAbout(b, id, brief)
    ensures Acked(b, brief) <==> exists id :: Acks(b, id, brief)
  {
    if OpenAsk(b, brief) {
      var i :| 0 <= i < |b.order| && HasEntry(b, i) && At(b, i).event.kind.Ask?
               && Get(At(b, i).event.refs, About) == Some(brief) && At(b, i).conflict.None? && At(b, i).id !in b.closers;
      assert Filed(b, b.order[i]);
      assert AsksAbout(b, b.order[i], brief);
    }
    if Acked(b, brief) {
      var i :| 0 <= i < |b.order| && HasEntry(b, i) && At(b, i).event.kind.Ack? && Get(At(b, i).event.refs, OfRef) == Some(brief);
      assert Acks(b, b.order[i], brief);
    }
    forall id | AsksAbout(b, id, brief) || Acks(b, id, brief)
      ensures AsksAbout(b, id, brief) ==> OpenAsk(b, brief)
      ensures Acks(b, id, brief) ==> Acked(b, brief)
    {
      assert Filed(b, id);
      assert HasEntry(b, b.entries[id].index - 1) && At(b, b.entries[id].index - 1) == b.entries[id];
    }
  }

  /** A brief's state is the first row of the design's table that applies, over everything
      admitted. */
  lemma AttemptIsTheTable(b: BoardState, brief: Id)
    requires Consistent(b) && FirstCloserWins(b) && TargetsFit(b)
    requires brief in b.entries && b.entries[brief].event.body.BriefBody?
    ensures
      var state := Attempt(b, brief).value.state;
      && (state.Done? <==> brief in b.closers)
      && (state.InputRequired? <==> brief !in b.closers && exists id :: AsksAbout(b, id, brief))
      && (state.Working? <==> brief !in b.closers && !(exists id :: AsksAbout(b, id, brief)) && exists id :: Acks(b, id, brief))
      && (state.Submitted? <==> brief !in b.closers && !(exists id :: AsksAbout(b, id, brief)) && !exists id :: Acks(b, id, brief))
  {
    hide OpenAsk, Acked, JobOpen, ConflictsOn, AsksAbout, Acks, Consistent, FirstCloserWins, TargetsFit;
    DoneIffClosed(b, brief);
    ScansFindEntries(b, brief);
  }

  /** Completed or Failed is final: no extension of the log changes it. */
  lemma DoneIsFinal(g: Genesis, log: seq<LogEntry>, more: seq<LogEntry>, brief: Id)
    requires RosterWellFormed(g.roster)
    requires Attempt(Run(g, log), brief).Some? && Attempt(Run(g, log), brief).value.state.Done?
    ensures Attempt(Run(g, log + more), brief).Some?
    ensures Attempt(Run(g, log + more), brief).value.state == Attempt(Run(g, log), brief).value.state
  {
    hide Run, OpenAsk, Acked, JobOpen, ConflictsOn, Consistent, HeadsLatest, OneRosterLine, Locked;
    EveryRunKeepsBoard(g, log);
    EveryRunKeepsBoard(g, log + more);
    LongerRunExtends(g, log, more);
    assert brief in Run(g, log).entries;
    DoneIffClosed(Run(g, log), brief);
    assert Run(g, log + more).entries[brief] == Run(g, log).entries[brief];
    DoneIffClosed(Run(g, log + more), brief);
  }

  /** The fold accepts a log exactly when no entry is refused on the way, and then it is
      the board every other reader of that log has. */
  lemma {:induction false} FoldIsRun(g: Genesis, log: seq<LogEntry>)
    ensures Folded(g, log).Ok? <==>
              forall i :: 0 <= i < |log| ==> !Applied(Run(g, log[..i]), log[i]).1.Refuse?
    ensures Folded(g, log).Ok? ==> Folded(g, log).value == Run(g, log)
    ensures Folded(g, log).Err? ==>
              var e := Folded(g, log).error;
              && e.position < |log|
              && Applied(Run(g, log[..e.position]), log[e.position]).1 == Refuse(e.refusal)
              && forall i :: 0 <= i < e.position ==> !Applied(Run(g, log[..i]), log[i]).1.Refuse?
  {
    hide Applied;
    if |log| > 0 {
      var init := log[..|log| - 1];
      FoldIsRun(g, init);
      forall i | 0 <= i < |init|
        ensures init[..i] == log[..i] && init[i] == log[i]
      {
      }
    }
  }
}

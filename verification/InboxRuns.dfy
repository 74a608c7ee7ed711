/**
 The inbox under every interleaving: tasks of many envelopes, each between any two of its
 locks, and the local side registering and dropping waiters all the while.
 */
module InboxRuns {
  import opened SequenceModel
  import opened ReplayModel
  import opened ReplyModel
  import opened InboxModel

  /** An envelope arrives and gets a task; the local side registers, is sent a reply or drops
      a receiver; a task takes its next lock. */
  datatype Turn = Arrives(a: Arrival) | Locally(step: ReplyStep) | Goes(k: nat)

  /** The inbox, and every task there has been, in order of arrival. */
  datatype Bus = Bus(inbox: InboxState, tasks: seq<Task>)

  const SILENT := Bus(NOTHING_HEARD, [])

  function Stepped(l: Local, b: Bus, turn: Turn): Bus {
    match turn
    case Arrives(a) => b.(tasks := b.tasks + [Task(a, 0, Fresh)])
    case Locally(step) =>
      if step.Takes? then b else b.(inbox := b.inbox.(exchange := Exchanged(b.inbox.exchange, step)))
    case Goes(k) =>
      if k >= |b.tasks| then b
      else
        var (x, t) := TaskTurn(l, b.inbox, b.tasks[k]);
        Bus(x, b.tasks[k := t])
  }

  function Ran(l: Local, turns: seq<Turn>): Bus {
    if |turns| == 0 then SILENT else Stepped(l, Ran(l, turns[..|turns| - 1]), turns[|turns| - 1])
  }

  // ------------------------------------------------------------------ what a run has seen

  predicate TakesAt(b: Bus, turn: Turn, stage: Stage) {
    turn.Goes? && turn.k < |b.tasks| && b.tasks[turn.k].stage == stage
  }

  /** The tasks that took the lock of this stage, in the order they did. */
  function Through(l: Local, turns: seq<Turn>, stage: Stage): seq<nat> {
    if |turns| == 0 then []
    else
      var init, last := turns[..|turns| - 1], turns[|turns| - 1];
      Through(l, init, stage) + if TakesAt(Ran(l, init), last, stage) then [last.k] else []
  }

  /** The tasks that came into this stage from another, in the order they did: into
      `NonceSpent` by putting a nonce in the cache, into `MarkMoved` by moving a mark. */
  function Entered(l: Local, turns: seq<Turn>, stage: Stage): seq<nat> {
    if |turns| == 0 then []
    else
      var init, last := turns[..|turns| - 1], turns[|turns| - 1];
      Entered(l, init, stage) +
      if last.Goes? && !TakesAt(Ran(l, init), last, stage) && TakesAt(Ran(l, turns), last, stage) then [last.k] else []
  }

  // ------------------------------------------------------------------ what every turn keeps

  /** A task past its check: if its reply finds a waiter that was there at the check, it is a
      waiter for its signer. */
  ghost predicate CheckHolds(x: InboxState, t: Task) {
    && (!t.stage.Fresh? ==> t.since <= |x.exchange.made|)
    && (!t.stage.Fresh? && !t.stage.Over? && t.a.env.message.Some? && t.a.env.message.value.Reply? ==>
          var id := t.a.env.message.value.correlation;
          id in x.exchange.waiters && x.exchange.waiters[id].token < t.since ==>
            x.exchange.waiters[id].peer == t.a.env.agent)
  }

  ghost predicate BusOk(b: Bus) {
    ExchangeOk(b.inbox.exchange) && forall k {:trigger b.tasks[k]} :: 0 <= k < |b.tasks| ==> CheckHolds(b.inbox, b.tasks[k])
  }

  /** Registering makes only newer waiters; everything else only takes waiters away. */
  ghost predicate OnlyNewer(x: Exchange, x': Exchange) {
    && |x.made| <= |x'.made|
    && forall id {:trigger x'.waiters[id]} :: id in x'.waiters ==>
         (id in x.waiters && x.waiters[id] == x'.waiters[id]) || x'.waiters[id].token >= |x.made|
  }

  lemma ExchangeOnlyNewer(x: Exchange, s: ReplyStep)
    ensures OnlyNewer(x, Exchanged(x, s))
  {
  }

  lemma TurnOnlyNewer(l: Local, x: InboxState, t: Task)
    ensures OnlyNewer(x.exchange, TaskTurn(l, x, t).0.exchange)
  {
    hide NonceChecked, Advance, Exchanged, Admit, WrongWaiter, HandedOn;
    if t.stage.MarkMoved? && t.a.env.message.Some? && t.a.env.message.value.Reply? {
      var m := t.a.env.message.value;
      ExchangeOnlyNewer(x.exchange, Takes(m.correlation, t.a.env.agent, m.body));
    }
  }

  lemma CheckStays(x: InboxState, x': InboxState, t: Task)
    requires CheckHolds(x, t) && OnlyNewer(x.exchange, x'.exchange)
    ensures CheckHolds(x', t)
  {
  }

  lemma CheckStarts(l: Local, x: InboxState, t: Task)
    requires CheckHolds(x, t)
    ensures CheckHolds(TaskTurn(l, x, t).0, TaskTurn(l, x, t).1)
  {
    hide NonceChecked, Advance, Exchanged, Admit, HandedOn;
    TurnOnlyNewer(l, x, t);
  }

  lemma StepKeepsBus(l: Local, b: Bus, turn: Turn)
    requires BusOk(b)
    ensures BusOk(Stepped(l, b, turn))
  {
    hide TaskTurn, Exchanged, ExchangeOk, CheckHolds, OnlyNewer;
    var b' := Stepped(l, b, turn);
    StepKeepsExchanges(l, b, turn);
    forall k | 0 <= k < |b'.tasks|
      ensures CheckHolds(b'.inbox, b'.tasks[k])
    {
      if turn == Goes(k) {
        CheckStarts(l, b.inbox, b.tasks[k]);
      } else if k < |b.tasks| {
        CheckStays(b.inbox, b'.inbox, b.tasks[k]);
      } else {
        FreshIsUnchecked(b'.inbox, b'.tasks[k].a);
      }
    }
  }

  lemma FreshIsUnchecked(x: InboxState, a: Arrival)
    ensures CheckHolds(x, Task(a, 0, Fresh))
  {
  }

  lemma StepKeepsExchanges(l: Local, b: Bus, turn: Turn)
    requires ExchangeOk(b.inbox.exchange)
    ensures ExchangeOk(Stepped(l, b, turn).inbox.exchange)
    ensures OnlyNewer(b.inbox.exchange, Stepped(l, b, turn).inbox.exchange)
  {
    hide Exchanged, ExchangeOk, NonceChecked, Advance, Admit, WrongWaiter, HandedOn;
    if turn.Locally? {
      StepKeepsExchange(b.inbox.exchange, turn.step);
      ExchangeOnlyNewer(b.inbox.exchange, turn.step);
    } else if turn.Goes? && turn.k < |b.tasks| {
      var t := b.tasks[turn.k];
      TurnOnlyNewer(l, b.inbox, t);
      if t.a.env.message.Some? && t.a.env.message.value.Reply? {
        var m := t.a.env.message.value;
        StepKeepsExchange(b.inbox.exchange, Takes(m.correlation, t.a.env.agent, m.body));
      }
    }
  }

  lemma {:induction false} EveryBusIsOk(l: Local, turns: seq<Turn>)
    ensures BusOk(Ran(l, turns))
  {
    hide Stepped, BusOk;
    if |turns| > 0 {
      EveryBusIsOk(l, turns[..|turns| - 1]);
      StepKeepsBus(l, Ran(l, turns[..|turns| - 1]), turns[|turns| - 1]);
    } else {
      SilentIsOk();
    }
  }

  lemma SilentIsOk()
    ensures BusOk(SILENT)
  {
  }

  // ------------------------------------------------------------------ what each outcome has cost

  /** Whether a task has put its nonce in the cache, read off where it stands. */
  predicate CostsNonce(t: Task) {
    match t.stage
    case Fresh => false
    case Checked => false
    case NonceSpent => true
    case MarkMoved => true
    case Over(WrongResponder(w)) => w.token >= t.since
    case Over(Rejected(e)) => e.BadSequence? || e.Malformed?
    case Over(_) => true
  }

  /** Whether it has moved its signer's mark. */
  predicate CostsMark(t: Task) {
    CostsNonce(t) && !t.stage.NonceSpent? && !(t.stage.Over? && t.stage.handled.Rejected? && t.stage.handled.error.BadSequence?)
  }

  lemma TurnCosts(l: Local, x: InboxState, t: Task)
    requires ExchangeOk(x.exchange) && CheckHolds(x, t)
    ensures
      var t' := TaskTurn(l, x, t).1;
      && (CostsNonce(t') <==> CostsNonce(t) || (!t.stage.NonceSpent? && t'.stage.NonceSpent?))
      && (CostsMark(t') <==> CostsMark(t) || (!t.stage.MarkMoved? && t'.stage.MarkMoved?))
  {
    hide NonceChecked, Advance, Exchanged, SendOk;
    if t.a.env.message.Some? && t.a.env.message.value.Reply? {
      assert WaiterOk(x.exchange, t.a.env.message.value.correlation);
    }
  }

  ghost predicate CostsAreRight(l: Local, turns: seq<Turn>, k: nat) {
    var b := Ran(l, turns);
    && (k in Entered(l, turns, NonceSpent) <==> k < |b.tasks| && CostsNonce(b.tasks[k]))
    && (k in Entered(l, turns, MarkMoved) <==> k < |b.tasks| && CostsMark(b.tasks[k]))
  }

  /** In every run, and for every task: exactly which outcomes have spent the envelope's nonce,
      and which have moved its signer's mark. */
  lemma {:induction false} WhatItCost(l: Local, turns: seq<Turn>, k: nat)
    ensures CostsAreRight(l, turns, k)
  {
    hide CostsNonce, CostsMark, TaskTurn, ExchangeOk, CheckHolds;
    if |turns| > 0 {
      var init, last := turns[..|turns| - 1], turns[|turns| - 1];
      WhatItCost(l, init, k);
      EveryBusIsOk(l, init);
      var b := Ran(l, init);
      if last.Goes? && last.k < |b.tasks| {
        TurnCosts(l, b.inbox, b.tasks[last.k]);
      } else {
        FreshCostsNothing();
      }
    }
  }

  lemma FreshCostsNothing()
    ensures forall a, n :: !CostsNonce(Task(a, n, Fresh)) && !CostsMark(Task(a, n, Fresh))
  {
  }

  // ------------------------------------------------------------------ a task keeps its envelope

  lemma StepKeepsTasks(l: Local, b: Bus, turn: Turn, k: nat)
    requires k < |b.tasks|
    ensures
      var b' := Stepped(l, b, turn);
      && k < |b'.tasks| && b'.tasks[k].a == b.tasks[k].a
      && (turn != Goes(k) || b.tasks[k].stage.Over? ==> b'.tasks[k] == b.tasks[k])
  {
    hide TaskTurn;
    if turn == Goes(k) {
      TurnGoesOn(l, b.inbox, b.tasks[k]);
    }
  }

  /** An outcome is final. */
  lemma {:induction false} OverIsFinal(l: Local, turns: seq<Turn>, n: nat, k: nat)
    requires n <= |turns| && k < |Ran(l, turns[..n]).tasks|
    ensures
      var t := Ran(l, turns[..n]).tasks[k];
      && k < |Ran(l, turns).tasks| && Ran(l, turns).tasks[k].a == t.a
      && (t.stage.Over? ==> Ran(l, turns).tasks[k] == t)
  {
    hide Stepped;
    if n == |turns| {
      assert turns[..n] == turns;
    } else {
      var init := turns[..|turns| - 1];
      assert init[..n] == turns[..n];
      OverIsFinal(l, init, n, k);
      StepKeepsTasks(l, Ran(l, init), turns[|turns| - 1], k);
    }
  }

  ghost predicate Listed(b: Bus, ks: seq<nat>) {
    forall i {:trigger ks[i]} :: 0 <= i < |ks| ==> ks[i] < |b.tasks|
  }

  function Env(b: Bus, k: nat): Envelope
    requires k < |b.tasks|
  {
    b.tasks[k].a.env
  }

  lemma {:induction false} HistoryIsListed(l: Local, turns: seq<Turn>, stage: Stage)
    ensures Listed(Ran(l, turns), Through(l, turns, stage)) && Listed(Ran(l, turns), Entered(l, turns, stage))
  {
    hide TaskTurn;
    if |turns| > 0 {
      HistoryIsListed(l, turns[..|turns| - 1], stage);
    }
  }

  // ------------------------------------------------------------------ the tracker

  /** A mark is the highest sequence its peer has brought to the tracker. */
  ghost predicate MarkIsMax(b: Bus, tried: seq<nat>, peer: Peer) {
    && Listed(b, tried)
    && (forall i {:trigger tried[i]} :: 0 <= i < |tried| && Env(b, tried[i]).agent == peer ==>
          Env(b, tried[i]).sequence <= Mark(b.inbox.marks, peer))
    && (Mark(b.inbox.marks, peer) > 0 ==>
          exists i :: 0 <= i < |tried| && Env(b, tried[i]).agent == peer && Env(b, tried[i]).sequence == Mark(b.inbox.marks, peer))
  }

  lemma StepMarks(l: Local, b: Bus, turn: Turn, peer: Peer)
    ensures
      var b' := Stepped(l, b, turn);
      if TakesAt(b, turn, NonceSpent) && Env(b, turn.k).agent == peer && Env(b, turn.k).sequence > Mark(b.inbox.marks, peer)
      then Mark(b'.inbox.marks, peer) == Env(b, turn.k).sequence && b'.tasks[turn.k].stage.MarkMoved?
      else
        && Mark(b'.inbox.marks, peer) == Mark(b.inbox.marks, peer)
        && (turn.Goes? && turn.k < |b.tasks| && Env(b, turn.k).agent == peer && b'.tasks[turn.k].stage.MarkMoved? ==>
              b.tasks[turn.k].stage.MarkMoved?)
  {
    hide NonceChecked, Exchanged, Admit, WrongWaiter, HandedOn;
  }

  lemma {:induction false} MarksAreMaxima(l: Local, turns: seq<Turn>, peer: Peer)
    ensures MarkIsMax(Ran(l, turns), Through(l, turns, NonceSpent), peer)
  {
    hide Stepped, TaskTurn;
    HistoryIsListed(l, turns, NonceSpent);
    if |turns| > 0 {
      var init, last := turns[..|turns| - 1], turns[|turns| - 1];
      MarksAreMaxima(l, init, peer);
      var b, b', tried, tried' := Ran(l, init), Ran(l, turns), Through(l, init, NonceSpent), Through(l, turns, NonceSpent);
      StepMarks(l, b, last, peer);
      forall i | 0 <= i < |tried|
        ensures tried'[i] == tried[i] < |b'.tasks| && Env(b', tried[i]) == Env(b, tried[i])
      {
        StepKeepsTasks(l, b, last, tried[i]);
      }
      if TakesAt(b, last, NonceSpent) {
        StepKeepsTasks(l, b, last, last.k);
        assert tried'[|tried|] == last.k;
      }
      if Mark(b'.inbox.marks, peer) == Mark(b.inbox.marks, peer) && Mark(b.inbox.marks, peer) > 0 {
        var i :| 0 <= i < |tried| && Env(b, tried[i]).agent == peer && Env(b, tried[i]).sequence == Mark(b.inbox.marks, peer);
        assert Env(b', tried'[i]).sequence == Mark(b'.inbox.marks, peer);
      }
    }
  }

  /**
   Exactly when an envelope is refused for its sequence: an equal or later one of the same
   signer took the tracker's lock first, or its sequence is 0. Arriving first is not enough;
   each envelope has a task of its own.
   */
  lemma LateExactly(l: Local, turns: seq<Turn>, k: nat)
    requires TakesAt(Ran(l, turns), Goes(k), NonceSpent)
    ensures
      var b, tried := Ran(l, turns), Through(l, turns, NonceSpent);
      var t := Stepped(l, b, Goes(k)).tasks[k];
      && Listed(b, tried)
      && (t.stage.Over? <==>
            || Env(b, k).sequence == 0
            || exists i :: 0 <= i < |tried| && Env(b, tried[i]).agent == Env(b, k).agent && Env(b, tried[i]).sequence >= Env(b, k).sequence)
      && (t.stage.Over? ==> t.stage.handled.Rejected? && t.stage.handled.error.BadSequence?)
      && (!t.stage.Over? ==> t.stage.MarkMoved?)
  {
    hide Ran, Through, NonceChecked, Exchanged, Admit, WrongWaiter, HandedOn;
    MarksAreMaxima(l, turns, Env(Ran(l, turns), k).agent);
  }

  /** Each signer's sequences get past the tracker in increasing order: none twice. */
  lemma {:induction false} PassedInOrder(l: Local, turns: seq<Turn>, i: nat, j: nat)
    requires i < j < |Entered(l, turns, MarkMoved)|
    ensures
      var b, passed := Ran(l, turns), Entered(l, turns, MarkMoved);
      && Listed(b, passed)
      && (Env(b, passed[i]).agent == Env(b, passed[j]).agent ==> Env(b, passed[i]).sequence < Env(b, passed[j]).sequence)
  {
    hide Stepped, TaskTurn;
    HistoryIsListed(l, turns, MarkMoved);
    var init, last := turns[..|turns| - 1], turns[|turns| - 1];
    HistoryIsListed(l, init, MarkMoved);
    var b, passed, passed' := Ran(l, init), Entered(l, init, MarkMoved), Entered(l, turns, MarkMoved);
    StepKeepsTasks(l, b, last, passed[i]);
    if j < |passed| {
      PassedInOrder(l, init, i, j);
      StepKeepsTasks(l, b, last, passed[j]);
    } else {
      var peer := Env(b, passed[i]).agent;
      PassedIsCovered(l, init, i);
      StepMarks(l, b, last, peer);
      NewTaskIsFresh(l, b, last);
      StepKeepsTasks(l, b, last, last.k);
    }
  }

  lemma NewTaskIsFresh(l: Local, b: Bus, turn: Turn)
    ensures turn.Goes? ==> |Stepped(l, b, turn).tasks| == |b.tasks|
  {
    hide TaskTurn;
  }

  /** What got past the tracker is covered by its signer's mark. */
  lemma {:induction false} PassedIsCovered(l: Local, turns: seq<Turn>, i: nat)
    requires i < |Entered(l, turns, MarkMoved)|
    ensures
      var b, passed := Ran(l, turns), Entered(l, turns, MarkMoved);
      Listed(b, passed) && Env(b, passed[i]).sequence <= Mark(b.inbox.marks, Env(b, passed[i]).agent)
  {
    hide Stepped, TaskTurn;
    HistoryIsListed(l, turns, MarkMoved);
    var init, last := turns[..|turns| - 1], turns[|turns| - 1];
    var b, passed := Ran(l, init), Entered(l, init, MarkMoved);
    HistoryIsListed(l, init, MarkMoved);
    NewTaskIsFresh(l, b, last);
    if i < |passed| {
      PassedIsCovered(l, init, i);
      StepKeepsTasks(l, b, last, passed[i]);
      StepMarks(l, b, last, Env(b, passed[i]).agent);
    } else {
      StepKeepsTasks(l, b, last, last.k);
      StepMarks(l, b, last, Env(b, last.k).agent);
    }
  }

  /** A signer's sequence is handed on by one envelope at most, however often it is sent, and
      long after its nonce has left the cache. */
  lemma HandedOnOnce(l: Local, turns: seq<Turn>, j: nat, k: nat)
    requires j < |Ran(l, turns).tasks| && k < |Ran(l, turns).tasks| && j != k
    ensures
      var b := Ran(l, turns);
      CostsMark(b.tasks[j]) && CostsMark(b.tasks[k]) && Env(b, j).agent == Env(b, k).agent ==>
        Env(b, j).sequence != Env(b, k).sequence
  {
    hide Ran, Entered, CostsMark, CostsNonce;
    WhatItCost(l, turns, j);
    WhatItCost(l, turns, k);
    var b, passed := Ran(l, turns), Entered(l, turns, MarkMoved);
    if CostsMark(b.tasks[j]) && CostsMark(b.tasks[k]) {
      var x, y :| 0 <= x < |passed| && 0 <= y < |passed| && passed[x] == j && passed[y] == k;
      if x < y {
        PassedInOrder(l, turns, x, y);
      } else {
        PassedInOrder(l, turns, y, x);
      }
    }
  }

  /**
   Sender and receiver together. Of one sender, only its first `n` sequences have come to the
   tracker so far, in whatever order and over however many restarts, crashes and failed
   reservations of it, among any traffic of other peers and anything at all that fails
   admission in its name. The next one it issued is not turned away for its sequence.
   */
  lemma RestartsAreNeverLate(steps: seq<SendStep>, l: Local, turns: seq<Turn>, k: nat, n: nat)
    requires AllCan(UNUSED, steps) && n < |AllSent(UNUSED, steps).issued|
    requires TakesAt(Ran(l, turns), Goes(k), NonceSpent) && Env(Ran(l, turns), k).sequence == AllSent(UNUSED, steps).issued[n]
    requires
      var b, tried := Ran(l, turns), Through(l, turns, NonceSpent);
      forall i {:trigger tried[i]} :: 0 <= i < |tried| && tried[i] < |b.tasks| && Env(b, tried[i]).agent == Env(b, k).agent ==>
        Env(b, tried[i]).sequence in AllSent(UNUSED, steps).issued[..n]
    ensures Stepped(l, Ran(l, turns), Goes(k)).tasks[k].stage.MarkMoved?
  {
    hide Ran, Through, Stepped, AllSent, AllCan, SenderOk;
    LateExactly(l, turns, k);
    IssuedStrictlyIncrease(steps);
    var issued := AllSent(UNUSED, steps).issued;
    assert AllSent(UNUSED, steps).store != [] by { StoreThere(steps); }
    assert issued[n] >= 1 by { assert AllSent(UNUSED, steps).store[0] in AllSent(UNUSED, steps).store; }
  }

  lemma StoreThere(steps: seq<SendStep>)
    requires AllCan(UNUSED, steps)
    ensures AllSent(UNUSED, steps).store != []
  {
    IssuedStrictlyIncrease(steps);
  }

  // ------------------------------------------------------------------ the nonce cache

  function Nonces(b: Bus, ks: seq<nat>): seq<Nonce>
    requires forall i :: 0 <= i < |ks| ==> ks[i] < |b.tasks|
  {
    seq(|ks|, i requires 0 <= i < |ks| => Env(b, ks[i]).nonce)
  }

  lemma NoncesStay(l: Local, b: Bus, turn: Turn, ks: seq<nat>)
    requires Listed(b, ks)
    ensures Listed(Stepped(l, b, turn), ks) && Nonces(Stepped(l, b, turn), ks) == Nonces(b, ks)
  {
    hide Stepped;
    forall i | 0 <= i < |ks|
      ensures ks[i] < |Stepped(l, b, turn).tasks| && Env(Stepped(l, b, turn), ks[i]) == Env(b, ks[i])
    {
      StepKeepsTasks(l, b, turn, ks[i]);
    }
  }

  lemma StepNonces(l: Local, b: Bus, turn: Turn)
    ensures
      var b' := Stepped(l, b, turn);
      if TakesAt(b, turn, Checked) && Env(b, turn.k).nonce !in b.inbox.order
      then b'.tasks[turn.k].stage.NonceSpent? && b'.inbox.order == Tail(b.inbox.order + [Env(b, turn.k).nonce], NONCE_CAPACITY)
      else
        && b'.inbox.order == b.inbox.order
        && (turn.Goes? && turn.k < |b.tasks| && b'.tasks[turn.k].stage.NonceSpent? ==> b.tasks[turn.k].stage.NonceSpent?)
        && (TakesAt(b, turn, Checked) ==> b'.tasks[turn.k].stage == Over(Rejected(Replayed)))
  {
    hide Tail, Advance, Exchanged, Admit, WrongWaiter, HandedOn;
  }

  /** In every run the cache holds the last 4096 nonces spent, whatever became of their
      envelopes; and a task at the cache is turned away exactly when its nonce is among
      them. */
  lemma {:induction false} ReplayIsTheWindow(l: Local, turns: seq<Turn>, k: nat)
    ensures
      var b, spent := Ran(l, turns), Entered(l, turns, NonceSpent);
      && Listed(b, spent)
      && b.inbox.order == Tail(Nonces(b, spent), NONCE_CAPACITY)
      && (TakesAt(b, Goes(k), Checked) ==>
            (Stepped(l, b, Goes(k)).tasks[k].stage == Over(Rejected(Replayed)) <==>
             Env(b, k).nonce in Tail(Nonces(b, spent), NONCE_CAPACITY)))
  {
    hide Stepped, TaskTurn, Tail;
    HistoryIsListed(l, turns, NonceSpent);
    if |turns| > 0 {
      var init, last := turns[..|turns| - 1], turns[|turns| - 1];
      ReplayIsTheWindow(l, init, k);
      var b, b', spent := Ran(l, init), Ran(l, turns), Entered(l, init, NonceSpent);
      StepNonces(l, b, last);
      NoncesStay(l, b, last, spent);
      NewTaskIsFresh(l, b, last);
      if TakesAt(b, last, Checked) && Env(b, last.k).nonce !in b.inbox.order {
        StepKeepsTasks(l, b, last, last.k);
        assert Nonces(b', spent + [last.k]) == Nonces(b', spent) + [Env(b, last.k).nonce];
        TailOfTail(Nonces(b, spent), Env(b, last.k).nonce, NONCE_CAPACITY);
      } else {
        assert Entered(l, turns, NonceSpent) == spent;
      }
    } else {
      EmptyWindow();
    }
    StepNonces(l, Ran(l, turns), Goes(k));
  }

  lemma EmptyWindow()
    ensures Tail<Nonce>([], NONCE_CAPACITY) == []
  {
  }

  // ------------------------------------------------------------------ replies from the wrong peer

  /** The reply steps of a run: the local side's, and one taking for each reply that got past
      the tracker. */
  function RepliesOf(l: Local, turns: seq<Turn>): seq<ReplyStep> {
    if |turns| == 0 then []
    else
      var init, last := turns[..|turns| - 1], turns[|turns| - 1];
      var b := Ran(l, init);
      RepliesOf(l, init) +
      if last.Locally? && !last.step.Takes? then [last.step]
      else if TakesAt(b, last, MarkMoved) && Env(b, last.k).message.Some? && Env(b, last.k).message.value.Reply?
      then [Takes(Env(b, last.k).message.value.correlation, Env(b, last.k).agent, Env(b, last.k).message.value.body)]
      else []
  }

  /** The waiters of a run are those of its reply steps: the checks, and everything else that
      is turned away, are no part of it. So what holds of every exchange holds here. */
  lemma {:induction false} WaitersAreTheReplies(l: Local, turns: seq<Turn>)
    ensures Ran(l, turns).inbox.exchange == AllExchanged(RepliesOf(l, turns))
  {
    hide Exchanged, NonceChecked, Advance, Admit, WrongWaiter, HandedOn;
    if |turns| > 0 {
      var init, last := turns[..|turns| - 1], turns[|turns| - 1];
      WaitersAreTheReplies(l, init);
      var replies, replies' := RepliesOf(l, init), RepliesOf(l, turns);
      if |replies'| > |replies| {
        assert replies'[..|replies|] == replies;
      } else {
        assert replies' == replies;
      }
    }
  }

  /** A turn of a task changes the waiters only by taking its own: the task's outcome is then,
      for good, that delivery. */
  lemma OnlyDeliveriesTake(l: Local, turns: seq<Turn>, n: nat, k: nat)
    requires n < |turns| && turns[n] == Goes(k) && k < |Ran(l, turns[..n]).tasks|
    ensures k < |Ran(l, turns).tasks|
    ensures
      || Ran(l, turns[..n + 1]).inbox.exchange == Ran(l, turns[..n]).inbox.exchange
      || (Ran(l, turns).tasks[k].stage.Over? && Ran(l, turns).tasks[k].stage.handled.Delivering?)
  {
    hide NonceChecked, Advance, Admit, WrongWaiter;
    assert turns[..n + 1][..n] == turns[..n];
    OverIsFinal(l, turns, n, k);
    OverIsFinal(l, turns, n + 1, k);
  }

  /** A registration, once made, stays the one it was. */
  lemma RegistrationStays(x: Exchange, s: ReplyStep, token: nat)
    requires token < |x.made|
    ensures
      var x' := Exchanged(x, s);
      token < |x'.made| && x'.made[token].id == x.made[token].id && x'.made[token].peer == x.made[token].peer
  {
  }

  /** A reply set aside: the waiter it met is a registration of its correlation for another
      peer than its signer. */
  ghost predicate SetAside(x: InboxState, t: Task) {
    t.stage.Over? && t.stage.handled.WrongResponder? ==>
      var w, env := t.stage.handled.waiter, t.a.env;
      && env.message.Some? && env.message.value.Reply? && w.peer != env.agent
      && w.token < |x.exchange.made|
      && x.exchange.made[w.token].id == env.message.value.correlation && x.exchange.made[w.token].peer == w.peer
  }

  lemma SetAsideStays(x: InboxState, x': InboxState, s: ReplyStep, t: Task)
    requires SetAside(x, t) && (x'.exchange == x.exchange || x'.exchange == Exchanged(x.exchange, s))
    ensures SetAside(x', t)
  {
    hide Exchanged;
    if t.stage.Over? && t.stage.handled.WrongResponder? {
      RegistrationStays(x.exchange, s, t.stage.handled.waiter.token);
    }
  }

  lemma SetAsideStarts(l: Local, x: InboxState, t: Task)
    requires SetAside(x, t) && ExchangeOk(x.exchange)
    ensures SetAside(TaskTurn(l, x, t).0, TaskTurn(l, x, t).1)
  {
    hide NonceChecked, Advance, Admit, SendOk;
    if t.a.env.message.Some? && t.a.env.message.value.Reply? {
      assert WaiterOk(x.exchange, t.a.env.message.value.correlation);
    }
  }

  lemma {:induction false} SetAsideIsReal(l: Local, turns: seq<Turn>, k: nat)
    ensures k < |Ran(l, turns).tasks| ==> SetAside(Ran(l, turns).inbox, Ran(l, turns).tasks[k])
  {
    hide TaskTurn, Exchanged, SetAside, ExchangeOk, CheckHolds;
    if |turns| > 0 {
      var init, last := turns[..|turns| - 1], turns[|turns| - 1];
      SetAsideIsReal(l, init, k);
      EveryBusIsOk(l, init);
      var b, b' := Ran(l, init), Ran(l, turns);
      if k >= |b.tasks| {
        FreshIsNotSetAside();
      } else if last == Goes(k) {
        SetAsideStarts(l, b.inbox, b.tasks[k]);
      } else {
        OneReplyStep(l, b, last);
        SetAsideStays(b.inbox, b'.inbox, ReplyStepOf(b, last), b.tasks[k]);
      }
    }
  }

  lemma FreshIsNotSetAside()
    ensures forall x, a, n :: SetAside(x, Task(a, n, Fresh))
  {
  }

  /** The reply step a turn makes, if any. */
  function ReplyStepOf(b: Bus, turn: Turn): ReplyStep {
    if turn.Locally? then turn.step
    else if turn.Goes? && turn.k < |b.tasks| && Env(b, turn.k).message.Some? && Env(b, turn.k).message.value.Reply?
    then Takes(Env(b, turn.k).message.value.correlation, Env(b, turn.k).agent, Env(b, turn.k).message.value.body)
    else Sends(0)
  }

  lemma OneReplyStep(l: Local, b: Bus, turn: Turn)
    ensures
      var x' := Stepped(l, b, turn).inbox.exchange;
      x' == b.inbox.exchange || x' == Exchanged(b.inbox.exchange, ReplyStepOf(b, turn))
  {
    hide Exchanged, NonceChecked, Advance, Admit, WrongWaiter, HandedOn;
  }

  /**
   What a reply from the wrong peer costs, exactly. In every run, a reply set aside has spent
   its nonce, and moved its signer's mark, if and only if the waiter it met was registered
   after the reply was checked. (It never touches the waiters: `OnlyDeliveriesTake`.)
   */
  lemma WrongReplyCosts(l: Local, turns: seq<Turn>, k: nat)
    requires
      var b := Ran(l, turns);
      k < |b.tasks| && b.tasks[k].stage.Over? && b.tasks[k].stage.handled.WrongResponder?
    ensures
      var b := Ran(l, turns);
      var w := b.tasks[k].stage.handled.waiter;
      && (k in Entered(l, turns, NonceSpent) <==> w.token >= b.tasks[k].since)
      && (k in Entered(l, turns, MarkMoved) <==> w.token >= b.tasks[k].since)
      && SetAside(b.inbox, b.tasks[k])
  {
    hide Ran, Entered;
    WhatItCost(l, turns, k);
    SetAsideIsReal(l, turns, k);
  }

  // ------------------------------------------------------------------ what leaves no trace

  /** Past its first turn, a task has been turned away at admission exactly when admission
      fails it. */
  ghost predicate AdmittedFirst(l: Local, t: Task) {
    !t.stage.Fresh? ==>
      match Admit(t.a.env, t.a.from, l.user, l.agent)
      case Err(e) => t.stage == Over(Rejected(e))
      case Ok(_) => t.stage.Over? && t.stage.handled.Rejected? ==> !AtAdmission(t.stage.handled.error)
  }

  predicate AtAdmission(e: BusError) {
    !e.Replayed? && !e.BadSequence? && !e.Malformed?
  }

  /** Nothing that fails admission ever spends a nonce or comes to the tracker. */
  lemma {:induction false} AdmissionComesFirst(l: Local, turns: seq<Turn>, k: nat)
    requires k < |Ran(l, turns).tasks|
    ensures AdmittedFirst(l, Ran(l, turns).tasks[k])
    ensures k in Entered(l, turns, NonceSpent) ==> Admit(Ran(l, turns).tasks[k].a.env, Ran(l, turns).tasks[k].a.from, l.user, l.agent).Ok?
    ensures k in Through(l, turns, NonceSpent) ==> k in Entered(l, turns, NonceSpent)
  {
    hide TaskTurn, AdmittedFirst, CostsNonce, CostsMark, Admit;
    WhatItCost(l, turns, k);
    if |turns| > 0 {
      var init, last := turns[..|turns| - 1], turns[|turns| - 1];
      var b := Ran(l, init);
      WhatItCost(l, init, k);
      if k < |b.tasks| {
        AdmissionComesFirst(l, init, k);
        if last == Goes(k) {
          TurnAdmits(l, b.inbox, b.tasks[k]);
        }
      } else {
        HistoryIsListed(l, init, NonceSpent);
      }
      AtTheTrackerCosts();
    }
    AdmittedIsFree(l, Ran(l, turns).tasks[k]);
  }

  lemma AtTheTrackerCosts()
    ensures forall t: Task :: t.stage.NonceSpent? ==> CostsNonce(t)
    ensures forall l, t: Task :: t.stage.Fresh? ==> AdmittedFirst(l, t)
  {
  }

  lemma TurnAdmits(l: Local, x: InboxState, t: Task)
    requires AdmittedFirst(l, t)
    ensures AdmittedFirst(l, TaskTurn(l, x, t).1)
  {
    hide NonceChecked, Advance, Exchanged;
  }

  lemma AdmittedIsFree(l: Local, t: Task)
    requires AdmittedFirst(l, t)
    ensures CostsNonce(t) ==> Admit(t.a.env, t.a.from, l.user, l.agent).Ok?
  {
  }

  /** The run without any turn of these tasks. */
  function Without(turns: seq<Turn>, ks: set<nat>): seq<Turn> {
    if |turns| == 0 then []
    else
      var last := turns[|turns| - 1];
      Without(turns[..|turns| - 1], ks) + if last.Goes? && last.k in ks then [] else [last]
  }

  ghost predicate SameBut(b: Bus, b': Bus, ks: set<nat>) {
    && b.inbox == b'.inbox && |b.tasks| == |b'.tasks|
    && forall k {:trigger b.tasks[k]} {:trigger b'.tasks[k]} :: 0 <= k < |b.tasks| && k !in ks ==> b.tasks[k] == b'.tasks[k]
  }

  lemma QuietTurn(l: Local, x: InboxState, t: Task)
    requires ExchangeOk(x.exchange) && CheckHolds(x, t) && !CostsNonce(TaskTurn(l, x, t).1)
    ensures TaskTurn(l, x, t).0 == x
  {
    hide ExchangeOk, CheckHolds, Advance, Exchanged, Tail;
    TurnCosts(l, x, t);
  }

  lemma SameStep(l: Local, b: Bus, b': Bus, ks: set<nat>, turn: Turn)
    requires SameBut(b, b', ks) && !(turn.Goes? && turn.k in ks)
    ensures SameBut(Stepped(l, b, turn), Stepped(l, b', turn), ks)
  {
    hide TaskTurn, Exchanged;
  }

  lemma QuietStep(l: Local, b: Bus, b': Bus, ks: set<nat>, k: nat)
    requires SameBut(b, b', ks) && k in ks && BusOk(b)
    requires k < |b.tasks| ==> !CostsNonce(Stepped(l, b, Goes(k)).tasks[k])
    ensures SameBut(Stepped(l, b, Goes(k)), b', ks)
  {
    hide TaskTurn, ExchangeOk, CheckHolds, CostsNonce;
    if k < |b.tasks| {
      QuietTurn(l, b.inbox, b.tasks[k]);
    }
  }

  /**
   Envelopes that spent no nonce leave no trace: had none of them ever taken a turn, the
   cache, the marks and the waiters would be the same now, and every other envelope would
   have met the same fate. Those are the ones that fail admission, the replays, and exactly
   those replies from the wrong peer whose waiter was there when they were checked.
   */
  lemma {:induction false} TurnedAwayLeavesNoTrace(l: Local, turns: seq<Turn>, ks: set<nat>)
    requires forall k :: k in ks ==> k !in Entered(l, turns, NonceSpent)
    ensures SameBut(Ran(l, turns), Ran(l, Without(turns, ks)), ks)
  {
    hide Stepped, SameBut, BusOk, CostsNonce, CostsMark;
    if |turns| > 0 {
      var init, last := turns[..|turns| - 1], turns[|turns| - 1];
      TurnedAwayLeavesNoTrace(l, init, ks);
      var rest := Without(init, ks);
      if last.Goes? && last.k in ks {
        WhatItCost(l, turns, last.k);
        EveryBusIsOk(l, init);
        NewTaskIsFresh(l, Ran(l, init), last);
        QuietStep(l, Ran(l, init), Ran(l, rest), ks, last.k);
        assert Without(turns, ks) == rest;
      } else {
        SameStep(l, Ran(l, init), Ran(l, rest), ks, last);
        assert Without(turns, ks) == rest + [last] && (rest + [last])[..|rest|] == rest;
      }
    } else {
      SameAtStart(ks);
    }
  }

  lemma SameAtStart(ks: set<nat>)
    ensures SameBut(SILENT, SILENT, ks)
  {
  }

  // ------------------------------------------------------------------ two runs

  lemma RanOn(l: Local, turns: seq<Turn>, turn: Turn)
    ensures Ran(l, turns + [turn]) == Stepped(l, Ran(l, turns), turn)
  {
    hide Stepped;
    assert (turns + [turn])[..|turns|] == turns;
  }

  ghost predicate Admits(l: Local, a: Arrival) {
    Admit(a.env, a.from, l.user, l.agent).Ok?
  }

  predicate Replies(a: Arrival) {
    a.env.message.Some? && a.env.message.value.Reply?
  }

  predicate IsReply(a: Arrival, id: Correlation) {
    Replies(a) && a.env.message.value.correlation == id
  }

  /**
   A reply from the wrong peer can cost the expected one. It is checked while nobody is
   awaited; the request is registered; it spends its nonce, moves its mark and is then set
   aside; and the expected peer's reply with that nonce is a replay, its waiter still there.
   */
  lemma LateRegistrationCostsTheReply(l: Local, wrong: Arrival, right: Arrival, id: Correlation)
    requires Admits(l, wrong) && Admits(l, right) && IsReply(wrong, id) && IsReply(right, id)
    requires wrong.env.agent != right.env.agent && wrong.env.nonce == right.env.nonce && wrong.env.sequence > 0
    ensures
      var turns := [Arrives(wrong), Arrives(right), Goes(0), Locally(Registers(id, right.env.agent)), Goes(0), Goes(0), Goes(0),
                    Goes(1), Goes(1)];
      var b := Ran(l, turns);
      && |b.tasks| == 2
      && b.tasks[0].stage == Over(WrongResponder(Waiting(0, right.env.agent)))
      && b.tasks[1].stage == Over(Rejected(Replayed))
      && id in b.inbox.exchange.waiters
  {
    hide Ran, Stepped, Tail, Admit;
    var t0, t1, w := Task(wrong, 0, Fresh), Task(right, 0, Fresh), Waiting(0, right.env.agent);
    var ws := Exchange(map[id := w], [Registration(id, right.env.agent, Open)], []);
    var x := InboxState([wrong.env.nonce], map[wrong.env.agent := wrong.env.sequence], ws);
    var r0: seq<Turn> := [];
    var r2 := r0 + [Arrives(wrong)] + [Arrives(right)];
    TwoArrive(l, wrong, right);
    var r3 := r2 + [Goes(0)];
    GoesTo(l, r2, 0, NOTHING_HEARD, t0.(stage := Checked));
    var r4 := r3 + [Locally(Registers(id, right.env.agent))];
    RegistersTo(l, r3, id, right.env.agent, ws);
    var r5 := r4 + [Goes(0)];
    OneNonce(wrong.env.nonce);
    GoesTo(l, r4, 0, InboxState([wrong.env.nonce], map[], ws), t0.(stage := NonceSpent));
    var r6 := r5 + [Goes(0)];
    GoesTo(l, r5, 0, x, t0.(stage := MarkMoved));
    var r7 := r6 + [Goes(0)];
    GoesTo(l, r6, 0, x, t0.(stage := Over(WrongResponder(w))));
    var r8 := r7 + [Goes(1)];
    GoesTo(l, r7, 1, x, Task(right, 1, Checked));
    GoesTo(l, r8, 1, x, Task(right, 1, Over(Rejected(Replayed))));
    assert r8 + [Goes(1)]
        == [Arrives(wrong), Arrives(right), Goes(0), Locally(Registers(id, right.env.agent)), Goes(0), Goes(0), Goes(0), Goes(1), Goes(1)];
  }

  lemma OneNonce(nonce: Nonce)
    ensures Tail([] + [nonce], NONCE_CAPACITY) == [nonce]
  {
  }

  lemma TwoArrive(l: Local, a: Arrival, a': Arrival)
    ensures Ran(l, [] + [Arrives(a)] + [Arrives(a')]) == Bus(NOTHING_HEARD, [Task(a, 0, Fresh), Task(a', 0, Fresh)])
  {
    hide Ran;
    RanOn(l, [], Arrives(a));
    RanOn(l, [] + [Arrives(a)], Arrives(a'));
    assert Ran(l, []) == SILENT by { NothingRan(l); }
  }

  lemma NothingRan(l: Local)
    ensures Ran(l, []) == SILENT
  {
  }

  lemma RegistersTo(l: Local, turns: seq<Turn>, id: Correlation, peer: Peer, x: Exchange)
    requires x == Exchanged(Ran(l, turns).inbox.exchange, Registers(id, peer))
    ensures
      var b := Ran(l, turns);
      Ran(l, turns + [Locally(Registers(id, peer))]) == Bus(b.inbox.(exchange := x), b.tasks)
  {
    hide Ran, Exchanged;
    RanOn(l, turns, Locally(Registers(id, peer)));
  }

  lemma GoesTo(l: Local, turns: seq<Turn>, k: nat, x: InboxState, t: Task)
    requires k < |Ran(l, turns).tasks| && TaskTurn(l, Ran(l, turns).inbox, Ran(l, turns).tasks[k]) == (x, t)
    ensures Ran(l, turns + [Goes(k)]) == Bus(x, Ran(l, turns).tasks[k := t])
  {
    hide Ran, TaskTurn;
    RanOn(l, turns, Goes(k));
  }

  /** Two envelopes of one signer, sent and arriving in order: if the later one's task is
      first at the tracker, the earlier one is refused for its sequence. */
  lemma OvertakenIsRefused(l: Local, first: Arrival, second: Arrival)
    requires Admits(l, first) && Admits(l, second) && !Replies(first) && !Replies(second)
    requires first.env.agent == second.env.agent && 0 < first.env.sequence < second.env.sequence
    requires first.env.nonce != second.env.nonce
    ensures
      var b := Ran(l, [Arrives(first), Arrives(second), Goes(0), Goes(1), Goes(0), Goes(1), Goes(1), Goes(0)]);
      && |b.tasks| == 2
      && b.tasks[0].stage.Over? && b.tasks[0].stage.handled.Rejected? && b.tasks[0].stage.handled.error.BadSequence?
      && b.tasks[1].stage == MarkMoved
  {
    hide Ran, Stepped, Tail, Admit;
    var t0, t1 := Task(first, 0, Fresh), Task(second, 0, Fresh);
    var r0: seq<Turn> := [];
    var r2 := r0 + [Arrives(first)] + [Arrives(second)];
    TwoArrive(l, first, second);
    GoesTo(l, r2, 0, NOTHING_HEARD, t0.(stage := Checked));
    GoesTo(l, r2 + [Goes(0)], 1, NOTHING_HEARD, t1.(stage := Checked));
    var r4 := r2 + [Goes(0)] + [Goes(1)];
    OneNonce(first.env.nonce);
    GoesTo(l, r4, 0, NOTHING_HEARD.(order := [first.env.nonce]), t0.(stage := NonceSpent));
    var r5 := r4 + [Goes(0)];
    var x := NOTHING_HEARD.(order := Tail([first.env.nonce] + [second.env.nonce], NONCE_CAPACITY));
    GoesTo(l, r5, 1, x, t1.(stage := NonceSpent));
    var r6 := r5 + [Goes(1)];
    var x' := x.(marks := map[second.env.agent := second.env.sequence]);
    GoesTo(l, r6, 1, x', t1.(stage := MarkMoved));
    var r7 := r6 + [Goes(1)];
    var (r, m) := Advance(x'.marks, first.env.agent, first.env.sequence);
    GoesTo(l, r7, 0, x', t0.(stage := Over(Rejected(BadSequence(r.error.0, r.error.1)))));
    assert r7 + [Goes(0)] == [Arrives(first), Arrives(second), Goes(0), Goes(1), Goes(0), Goes(1), Goes(1), Goes(0)];
  }
}

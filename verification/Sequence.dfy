/** Sender-side sequencing: a block is durably reserved before any of it is issued. */
module SequenceModel {
  import opened Results

  const U64_MAX: nat := 0xFFFF_FFFF_FFFF_FFFF

  type u64 = n: nat | n <= U64_MAX

  const RESERVATION_BLOCK: nat := 1024

  function SaturatingAdd(a: nat, b: nat): nat {
    if a + b > U64_MAX then U64_MAX else a + b
  }

  /** How a reservation goes: staging or the rename fails and nothing shows; or the new
      number shows but the directory is not synced; or it is durable. */
  datatype ReserveFate = NotRenamed | NotSynced | Durable

  datatype SequenceError = Exhausted | NotReserved

  /** The reservation file: what its name has stood for since the directory was last
      durable, 0 when there is no file. The last is what a reader sees. */
  type Store = seq<nat>

  function AfterReserve(store: Store, through: nat, fate: ReserveFate): Store {
    match fate
    case NotRenamed => store
    case NotSynced => store + [through]
    case Durable => [through]
  }

  /** The last sequence issued, and how far the current block goes. */
  datatype Issued = Issued(last: nat, reserved: nat)

  /** The next sequence, the sequencer and the store after it. Without a store the numbers
      are held in memory only. */
  function NextStep(i: Issued, store: Option<Store>, fate: ReserveFate): (Result<nat, SequenceError>, Issued, Option<Store>) {
    if i.last == U64_MAX then (Err(Exhausted), i, store)
    else
      var next := i.last + 1;
      if next > i.reserved then
        var through := SaturatingAdd(i.reserved, RESERVATION_BLOCK);
        var after := if store.Some? then Some(AfterReserve(store.value, through, fate)) else None;
        if store.Some? && fate != Durable then (Err(NotReserved), i, after)
        else (Ok(next), Issued(next, through), after)
      else (Ok(next), i.(last := next), store)
  }

  class Sequencer {
    var last: nat
    var reserved: nat
    var store: Option<Store>

    function View(): Issued
      reads this
    {
      Issued(last, reserved)
    }

    /** From above everything the store has reserved. */
    constructor Reserving(store: Store)
      requires |store| > 0
      ensures View() == Issued(store[|store| - 1], store[|store| - 1]) && this.store == Some(store)
    {
      last, reserved, this.store := store[|store| - 1], store[|store| - 1], Some(store);
    }

    /** A counter without a store, whose first number is the one after `last`. */
    constructor After(last: nat)
      ensures View() == Issued(last, U64_MAX) && store.None?
    {
      this.last, reserved, store := last, U64_MAX, None;
    }

    method Reserve(through: nat, fate: ReserveFate) returns (ok: bool)
      modifies this`store
      ensures store == if old(store).Some? then Some(AfterReserve(old(store).value, through, fate)) else None
      ensures ok <==> store.None? || fate == Durable
    {
      if store.None? {
        return true;
      }
      match fate {
        case NotRenamed => return false;
        case NotSynced =>
          store := Some(store.value + [through]);
          return false;
        case Durable =>
          store := Some([through]);
          return true;
      }
    }

    method Next(fate: ReserveFate) returns (r: Result<nat, SequenceError>)
      modifies this
      ensures (r, View(), store) == NextStep(old(View()), old(store), fate)
    {
      if last == U64_MAX {
        return Err(Exhausted);
      }
      var next := last + 1;
      if next > reserved {
        var through := SaturatingAdd(reserved, RESERVATION_BLOCK);
        var ok := Reserve(through, fate);
        if !ok {
          return Err(NotReserved);
        }
        reserved := through;
      }
      last := next;
      return Ok(next);
    }
  }

  // ------------------------------------------------------------------ lives of a sender

  /** The store, the sequencer of the bus that is up, and everything ever issued. */
  datatype Sender = Sender(store: Store, up: Option<Issued>, issued: seq<nat>)

  datatype SendStep =
    | Issues(fate: ReserveFate)
    | Binds
    | Stops
    | PowerFails(left: nat)

  ghost predicate CanStep(s: Sender, step: SendStep) {
    step.PowerFails? ==> step.left in s.store
  }

  function Sent(s: Sender, step: SendStep): Sender {
    match step
    case Issues(fate) =>
      if s.up.None? then s
      else
        var (r, i, store) := NextStep(s.up.value, Some(s.store), fate);
        Sender(if store.Some? then store.value else s.store, Some(i), if r.Ok? then s.issued + [r.value] else s.issued)
    case Binds =>
      if s.up.Some? || |s.store| == 0 then s
      else s.(up := Some(Issued(s.store[|s.store| - 1], s.store[|s.store| - 1])))
    case Stops => s.(up := None)
    case PowerFails(left) => Sender([left], None, s.issued)
  }

  predicate Increasing(xs: seq<nat>) {
    forall i, j :: 0 <= i < j < |xs| ==> xs[i] < xs[j]
  }

  predicate AtMost(xs: seq<nat>, v: nat) {
    forall k :: 0 <= k < |xs| ==> 1 <= xs[k] <= v
  }

  lemma IssueNext(xs: seq<nat>, last: nat)
    requires Increasing(xs) && AtMost(xs, last)
    ensures Increasing(xs + [last + 1])
    ensures forall v {:trigger AtMost(xs + [last + 1], v)} :: v > last ==> AtMost(xs + [last + 1], v)
  {
  }

  /** No sequence issued exceeds any reservation power loss may leave; a running sequencer is
      past everything issued, and a block it has not used up is durable. */
  ghost predicate SenderOk(s: Sender) {
    && |s.store| > 0
    && Increasing(s.issued)
    && (forall v :: v in s.store ==> v <= U64_MAX && AtMost(s.issued, v))
    && (s.up.Some? ==>
          && s.up.value.last <= s.up.value.reserved <= U64_MAX
          && AtMost(s.issued, s.up.value.last)
          && (s.up.value.last < s.up.value.reserved ==> forall v :: v in s.store ==> s.up.value.reserved <= v))
  }

  lemma StepKeepsSender(s: Sender, step: SendStep)
    requires SenderOk(s) && CanStep(s, step)
    ensures SenderOk(Sent(s, step))
    ensures s.issued <= Sent(s, step).issued
  {
    hide Increasing, AtMost;
    if step.Issues? && s.up.Some? {
      IssueKeepsSender(s, step.fate);
    } else if step.Binds? {
      assert s.store[|s.store| - 1] in s.store;
    }
  }

  lemma IssueKeepsSender(s: Sender, fate: ReserveFate)
    requires SenderOk(s) && s.up.Some?
    ensures SenderOk(Sent(s, Issues(fate)))
  {
    hide Increasing, AtMost;
    var i := s.up.value;
    IssueNext(s.issued, i.last);
    MoreThan(s.issued, i.last, i.reserved);
    MoreThan(s.issued, i.reserved, SaturatingAdd(i.reserved, RESERVATION_BLOCK));
  }

  lemma MoreThan(xs: seq<nat>, v: nat, v': nat)
    requires AtMost(xs, v) && (v <= v')
    ensures AtMost(xs, v')
  {
  }

  function AllSent(s: Sender, steps: seq<SendStep>): Sender {
    if |steps| == 0 then s else Sent(AllSent(s, steps[..|steps| - 1]), steps[|steps| - 1])
  }

  ghost predicate AllCan(s: Sender, steps: seq<SendStep>) {
    |steps| > 0 ==> AllCan(s, steps[..|steps| - 1]) && CanStep(AllSent(s, steps[..|steps| - 1]), steps[|steps| - 1])
  }

  const UNUSED := Sender([0], None, [])

  /** Over every life of a sender, through failed reservations (a directory sync that fails
      after the rename included), restarts, crashes and power loss: the sequences issued
      strictly increase, and none exceeds any reservation that may be found later. */
  lemma {:induction false} IssuedStrictlyIncrease(steps: seq<SendStep>)
    requires AllCan(UNUSED, steps)
    ensures
      var s := AllSent(UNUSED, steps);
      && SenderOk(s) && Increasing(s.issued)
      && forall k, v :: 0 <= k < |s.issued| && v in s.store ==> 1 <= s.issued[k] <= v
  {
    hide Sent, CanStep;
    if |steps| > 0 {
      IssuedStrictlyIncrease(steps[..|steps| - 1]);
      StepKeepsSender(AllSent(UNUSED, steps[..|steps| - 1]), steps[|steps| - 1]);
    }
  }
}

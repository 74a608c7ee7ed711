/** Replay defence: a bounded nonce cache and a per-peer high-water mark. */
module ReplayModel {
  import opened Results
  import opened SequenceModel

  type Nonce = nat
  type Peer = string

  // ------------------------------------------------------------------ the nonce cache

  /** The last `n` of a list. */
  function Tail<T>(xs: seq<T>, n: nat): seq<T> {
    if |xs| <= n then xs else xs[|xs| - n..]
  }

  function NonceChecked(order: seq<Nonce>, capacity: nat, nonce: Nonce): (bool, seq<Nonce>) {
    if nonce in order then (false, order) else (true, Tail(order + [nonce], capacity))
  }

  ghost predicate Distinct<T>(xs: seq<T>) {
    forall i, j :: 0 <= i < j < |xs| ==> xs[i] != xs[j]
  }

  /** A set and a list of the same nonces. */
  ghost predicate SameNonces(seen: set<Nonce>, order: seq<Nonce>) {
    forall n :: n in seen <==> n in order
  }

  lemma PushNonce(seen: set<Nonce>, order: seq<Nonce>, nonce: Nonce)
    requires SameNonces(seen, order) && Distinct(order) && nonce !in seen
    ensures SameNonces(seen + {nonce}, order + [nonce]) && Distinct(order + [nonce])
  {
    assert forall i :: 0 <= i < |order| ==> order[i] in order;
  }

  lemma PopNonce(seen: set<Nonce>, order: seq<Nonce>)
    requires SameNonces(seen, order) && Distinct(order) && |order| > 0
    ensures SameNonces(seen - {order[0]}, order[1..]) && Distinct(order[1..])
  {
    assert order == [order[0]] + order[1..];
  }

  class NonceCache {
    var seen: set<Nonce>
    var order: seq<Nonce>
    const capacity: nat

    ghost predicate Valid()
      reads this
    {
      SameNonces(seen, order) && Distinct(order) && |order| <= capacity
    }

    constructor (capacity: nat)
      ensures Valid() && order == [] && this.capacity == capacity
    {
      seen, order, this.capacity := {}, [], capacity;
    }

    method CheckAndInsert(nonce: Nonce) returns (fresh_: bool)
      requires Valid()
      modifies this
      ensures Valid()
      ensures (fresh_, order) == NonceChecked(old(order), capacity, nonce)
    {
      hide SameNonces, Distinct;
      AsListed(seen, order, nonce);
      if nonce in seen {
        return false;
      }
      PushNonce(seen, order, nonce);
      seen := seen + {nonce};
      order := order + [nonce];
      ghost var all := order;
      while |order| > capacity
        invariant SameNonces(seen, order) && Distinct(order)
        invariant |order| <= |all| && order == all[|all| - |order|..]
        invariant |order| >= capacity || order == all
        decreases |order|
      {
        PopNonce(seen, order);
        seen := seen - {order[0]};
        order := order[1..];
      }
      return true;
    }
  }

  lemma AsListed(seen: set<Nonce>, order: seq<Nonce>, nonce: Nonce)
    requires SameNonces(seen, order)
    ensures nonce in seen <==> nonce in order
  {
  }

  /** Every nonce the cache let in, in order. */
  function NoncesIn(offered: seq<Nonce>, capacity: nat): (seq<Nonce>, seq<Nonce>) {
    if |offered| == 0 then ([], [])
    else
      var (order, accepted) := NoncesIn(offered[..|offered| - 1], capacity);
      var (ok, order') := NonceChecked(order, capacity, offered[|offered| - 1]);
      (order', if ok then accepted + [offered[|offered| - 1]] else accepted)
  }

  /** The cache is a window: it holds exactly the last `capacity` nonces it let in, and turns
      one away exactly when it is among those. */
  lemma {:induction false} CacheIsAWindow(offered: seq<Nonce>, capacity: nat, nonce: Nonce)
    ensures
      var (order, accepted) := NoncesIn(offered, capacity);
      && order == Tail(accepted, capacity)
      && (NonceChecked(order, capacity, nonce).0 <==> nonce !in Tail(accepted, capacity))
  {
    if |offered| > 0 {
      var init, last := offered[..|offered| - 1], offered[|offered| - 1];
      CacheIsAWindow(init, capacity, last);
      var (order, accepted) := NoncesIn(init, capacity);
      TailOfTail(accepted, last, capacity);
    }
  }

  lemma TailOfTail<T>(xs: seq<T>, x: T, n: nat)
    ensures Tail(Tail(xs, n) + [x], n) == Tail(xs + [x], n)
  {
  }

  // ------------------------------------------------------------------ the sequence tracker

  type Marks = map<Peer, u64>

  function Mark(m: Marks, peer: Peer): u64 {
    if peer in m then m[peer] else 0
  }

  /** Accept and advance exactly when the sequence is past the mark. The refusal names the
      mark plus one, in 64-bit arithmetic. */
  function Advance(m: Marks, peer: Peer, sequence: u64): (Result<(), (u64, u64)>, Marks) {
    if sequence > Mark(m, peer) then (Ok(()), m[peer := sequence])
    else (Err(((Mark(m, peer) + 1) % (U64_MAX + 1), sequence)), m)
  }

  /** The sequence a refusal names as expected is the lowest that would be taken, if and only
      if the mark is not the largest there is; at that mark it is 0, and nothing is ever taken
      again. */
  lemma ExpectedIsLowest(m: Marks, peer: Peer, sequence: u64)
    requires Advance(m, peer, sequence).0.Err?
    ensures
      var expected := Advance(m, peer, sequence).0.error.0;
      && (expected == 0 <==> Mark(m, peer) == U64_MAX)
      && ((forall s: u64 :: Advance(m, peer, s).0.Ok? <==> s >= expected) <==> Mark(m, peer) != U64_MAX)
      && (Mark(m, peer) == U64_MAX ==> forall s: u64 :: Advance(m, peer, s).0.Err?)
  {
    if Mark(m, peer) == U64_MAX {
      assert Advance(m, peer, 0).0.Err?;
    }
  }

  class SequenceTracker {
    var marks: Marks

    constructor ()
      ensures marks == map[]
    {
      marks := map[];
    }

    method CheckAndAdvance(peer: Peer, sequence: u64) returns (r: Result<(), (u64, u64)>)
      modifies this
      ensures (r, marks) == Advance(old(marks), peer, sequence)
    {
      var last := if peer in marks then marks[peer] else 0;
      if sequence > last {
        marks := marks[peer := sequence];
        return Ok(());
      }
      return Err(((last + 1) % (U64_MAX + 1), sequence));
    }
  }
}

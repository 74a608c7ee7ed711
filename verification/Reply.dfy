/** Request-reply correlation: waiters keyed by correlation, bound to the expected responder. */
module ReplyModel {
  import opened Results
  import opened ReplayModel

  type Correlation = nat
  type Bytes = seq<nat>

  /** A registration: which one it is, and who may answer it. */
  datatype Waiting = Waiting(token: nat, peer: Peer)

  type Waiters = map<Correlation, Waiting>

  datatype PeerCheck = Expected | Unknown | Mismatch(expected: Peer)

  function CheckPeer(ws: Waiters, id: Correlation, peer: Peer): PeerCheck {
    if id !in ws then Unknown
    else if ws[id].peer == peer then Expected
    else Mismatch(ws[id].peer)
  }

  function Get(ws: Waiters, id: Correlation): Option<Waiting> {
    if id in ws then Some(ws[id]) else None
  }

  function Cancelled(ws: Waiters, id: Correlation, token: nat): Waiters {
    if id in ws && ws[id].token == token then ws - {id} else ws
  }

  // ------------------------------------------------------------------ every interleaving

  /** Where one registration stands. `Dropping` has cancelled its waiter but its channel is
      still open; `Gone` is after that. */
  datatype Receiver = Open | Dropping | Gone

  datatype Registration = Registration(id: Correlation, peer: Peer, receiver: Receiver)

  /** A delivery that took its waiter: still to be sent, received, or sent to nobody. */
  datatype Outcome = Flying | Arrived | Missed

  datatype Sending = Sending(token: nat, peer: Peer, payload: Bytes, outcome: Outcome)

  /** The waiter map, every registration made, and every delivery that took a waiter. */
  datatype Exchange = Exchange(waiters: Waiters, made: seq<Registration>, sends: seq<Sending>)

  const QUIET := Exchange(map[], [], [])

  datatype ReplyStep =
    | Registers(id: Correlation, peer: Peer)
    | Takes(correlation: Correlation, from: Peer, payload: Bytes)
    | Sends(i: nat)
    | BeginsDrop(token: nat)
    | EndsDrop(dropped: nat)

  function Exchanged(x: Exchange, s: ReplyStep): Exchange {
    match s
    case Registers(id, peer) =>
      x.(waiters := x.waiters[id := Waiting(|x.made|, peer)], made := x.made + [Registration(id, peer, Open)])
    case Takes(id, peer, payload) =>
      if CheckPeer(x.waiters, id, peer) != Expected then x
      else x.(waiters := x.waiters - {id}, sends := x.sends + [Sending(x.waiters[id].token, peer, payload, Flying)])
    case Sends(i) =>
      if i >= |x.sends| || x.sends[i].outcome != Flying || x.sends[i].token >= |x.made| then x
      else
        var outcome := if x.made[x.sends[i].token].receiver == Gone then Missed else Arrived;
        x.(sends := x.sends[i := x.sends[i].(outcome := outcome)])
    case BeginsDrop(token) =>
      if token >= |x.made| || x.made[token].receiver != Open then x
      else
        x.(waiters := Cancelled(x.waiters, x.made[token].id, token),
           made := x.made[token := x.made[token].(receiver := Dropping)])
    case EndsDrop(token) =>
      if token >= |x.made| || x.made[token].receiver != Dropping then x
      else x.(made := x.made[token := x.made[token].(receiver := Gone)])
  }

  // ------------------------------------------------------------------ the waiter map itself

  /** The map under its lock. `made` and `sends` are the history it has been through; a token
      is the place of its registration in `made`. */
  class ReplyWaiter {
    var waiters: Waiters
    var nextToken: nat
    ghost var made: seq<Registration>
    ghost var sends: seq<Sending>

    ghost predicate Valid()
      reads this
    {
      nextToken == |made|
    }

    ghost function View(): Exchange
      reads this
    {
      Exchange(waiters, made, sends)
    }

    constructor ()
      ensures Valid() && View() == QUIET
    {
      waiters, nextToken, made, sends := map[], 0, [], [];
    }

    /** Bind `id` to the peer that may answer; a second registration replaces the first. */
    method Register(id: Correlation, peer: Peer) returns (token: nat)
      requires Valid()
      modifies this
      ensures Valid() && View() == Exchanged(old(View()), Registers(id, peer))
      ensures token == |old(made)|
    {
      token := nextToken;
      nextToken := nextToken + 1;
      waiters := waiters[id := Waiting(token, peer)];
      made := made + [Registration(id, peer, Open)];
    }

    /** The half of a delivery under the lock: compare the peer and take the waiter. */
    method TakeFor(id: Correlation, peer: Peer, payload: Bytes) returns (check: PeerCheck, found: Option<Waiting>)
      requires Valid()
      modifies this`waiters, this`sends
      ensures Valid() && View() == Exchanged(old(View()), Takes(id, peer, payload))
      ensures check == CheckPeer(old(waiters), id, peer) && found == Get(old(waiters), id)
    {
      check := CheckPeer(waiters, id, peer);
      found := Get(waiters, id);
      if check == Expected {
        sends := sends + [Sending(waiters[id].token, peer, payload, Flying)];
        waiters := waiters - {id};
      }
    }

    /** What dropping a registration's receiver does first: only that registration is removed. */
    method Cancel(id: Correlation, token: nat)
      requires Valid() && token < |View().made| && View().made[token].id == id && View().made[token].receiver == Open
      modifies this`waiters, this`made
      ensures Valid() && View() == Exchanged(old(View()), BeginsDrop(token))
    {
      if id in waiters && waiters[id].token == token {
        waiters := waiters - {id};
      }
      made := made[token := made[token].(receiver := Dropping)];
    }
  }

  // ------------------------------------------------------------------ what every interleaving keeps

  /** A waiter left in the map is a registration whose receiver is not being dropped, and
      which no delivery has taken. */
  ghost predicate WaiterOk(x: Exchange, id: Correlation) {
    id in x.waiters ==>
      var w := x.waiters[id];
      && w.token < |x.made| && x.made[w.token] == Registration(id, w.peer, Open)
      && forall i {:trigger x.sends[i]} :: 0 <= i < |x.sends| ==> x.sends[i].token != w.token
  }

  /** A delivery is to a registration, from the peer that one expected; no other delivery
      is to it. */
  ghost predicate SendOk(x: Exchange, i: int) {
    0 <= i < |x.sends| ==>
      && x.sends[i].token < |x.made| && x.made[x.sends[i].token].peer == x.sends[i].peer
      && forall j {:trigger x.sends[j]} :: 0 <= j < |x.sends| && j != i ==> x.sends[j].token != x.sends[i].token
  }

  ghost predicate ExchangeOk(x: Exchange) {
    && (forall id {:trigger WaiterOk(x, id)} :: WaiterOk(x, id))
    && (forall i {:trigger SendOk(x, i)} :: SendOk(x, i))
  }

  lemma StepKeepsExchange(x: Exchange, s: ReplyStep)
    requires ExchangeOk(x)
    ensures ExchangeOk(Exchanged(x, s))
  {
    var x' := Exchanged(x, s);
    forall id
      ensures WaiterOk(x', id)
    {
      assert WaiterOk(x, id);
      if s.Registers? && s.id == id {
        forall i | 0 <= i < |x.sends|
          ensures x.sends[i].token != |x.made|
        {
          assert SendOk(x, i);
        }
      }
      if s.Takes? && CheckPeer(x.waiters, s.correlation, s.from) == Expected {
        assert WaiterOk(x, s.correlation);
      }
    }
    forall i
      ensures SendOk(x', i)
    {
      assert SendOk(x, i);
      if s.Takes? && CheckPeer(x.waiters, s.correlation, s.from) == Expected {
        assert WaiterOk(x, s.correlation);
        forall j | 0 <= j < |x.sends|
          ensures SendOk(x, j)
        {
        }
      }
    }
  }

  function AllExchanged(steps: seq<ReplyStep>): Exchange {
    if |steps| == 0 then QUIET else Exchanged(AllExchanged(steps[..|steps| - 1]), steps[|steps| - 1])
  }

  lemma {:induction false} EveryExchangeIsOk(steps: seq<ReplyStep>)
    ensures ExchangeOk(AllExchanged(steps))
  {
    hide Exchanged;
    if |steps| > 0 {
      EveryExchangeIsOk(steps[..|steps| - 1]);
      StepKeepsExchange(AllExchanged(steps[..|steps| - 1]), steps[|steps| - 1]);
    }
  }

  /** A delivery that has ended is never taken back or changed. */
  lemma {:induction false} OutcomesAreFinal(steps: seq<ReplyStep>, n: nat, i: nat)
    requires n <= |steps| && i < |AllExchanged(steps[..n]).sends|
    ensures i < |AllExchanged(steps).sends|
    ensures
      var s, s' := AllExchanged(steps[..n]).sends[i], AllExchanged(steps).sends[i];
      && s'.token == s.token && s'.peer == s.peer && s'.payload == s.payload
      && (s.outcome != Flying ==> s'.outcome == s.outcome)
  {
    if n == |steps| {
      assert steps[..n] == steps;
    } else {
      var init := steps[..|steps| - 1];
      assert init[..n] == steps[..n];
      OutcomesAreFinal(init, n, i);
    }
  }

  /** Under every interleaving of registering, re-registering, taking, sending and dropping: a
      registration is completed at most once, and only from the peer it expects. */
  lemma CompletedAtMostOnce(steps: seq<ReplyStep>, i: nat, j: nat)
    requires i < |AllExchanged(steps).sends| && j < |AllExchanged(steps).sends|
    ensures
      var x := AllExchanged(steps);
      && (x.sends[i].token == x.sends[j].token ==> i == j)
      && x.sends[i].token < |x.made| && x.made[x.sends[i].token].peer == x.sends[i].peer
  {
    hide AllExchanged;
    EveryExchangeIsOk(steps);
    var x := AllExchanged(steps);
    assert SendOk(x, i) && SendOk(x, j);
  }

  /** Under every such interleaving, every waiter left in the map is the registration it says,
      its receiver one nobody has begun to drop, and no delivery has taken it. */
  lemma WaitersAreAwaited(steps: seq<ReplyStep>, id: Correlation)
    requires id in AllExchanged(steps).waiters
    ensures
      var x := AllExchanged(steps);
      var w := x.waiters[id];
      && w.token < |x.made| && x.made[w.token] == Registration(id, w.peer, Open)
      && forall i :: 0 <= i < |x.sends| ==> x.sends[i].token != w.token
  {
    hide AllExchanged;
    EveryExchangeIsOk(steps);
    assert WaiterOk(AllExchanged(steps), id);
  }
}

/** Inbound envelopes: a task for each, which takes its locks one after another among all the
    others. */
module InboxModel {
  import opened Results
  import opened SequenceModel
  import opened ReplayModel
  import opened ReplyModel

  const NONCE_CAPACITY: nat := 4096

  datatype Recipient = Direct(agent: Peer) | Topic(name: string)

  datatype Message =
    | Request(topic: string, correlation: Correlation, body: Bytes)
    | Reply(correlation: Correlation, body: Bytes)
    | Publish(topic: string, body: Bytes)

  /** An envelope as it arrives: whether it verifies, who signed it, and its payload if that
      parses. */
  datatype Envelope = Envelope(
    verifies: bool, agent: Peer, user: Peer, recipient: Recipient, sequence: u64, nonce: Nonce, message: Option<Message>)

  datatype Provenance = Carried(carrierAgent: Peer, carrierUser: Peer) | Unbound

  datatype BusError =
    | Unverified | UnboundDelivery | CarrierAgentMismatch | CarrierUserMismatch | ForeignPeer | WrongRecipient
    | Replayed | BadSequence(expected: u64, actual: u64) | Malformed

  /** The immutable half of admission: it verifies, its signer is the carrier the transport
      authenticated, of the same user as this bus, and it is addressed here. */
  function Admit(env: Envelope, from: Provenance, localUser: Peer, localAgent: Peer): Result<Peer, BusError> {
    if !env.verifies then Err(Unverified)
    else if from.Unbound? then Err(UnboundDelivery)
    else if from.carrierAgent != env.agent then Err(CarrierAgentMismatch)
    else if from.carrierUser != env.user then Err(CarrierUserMismatch)
    else if env.user != localUser then Err(ForeignPeer)
    else if env.recipient.Direct? && env.recipient.agent != localAgent then Err(WrongRecipient)
    else Ok(env.agent)
  }

  // ------------------------------------------------------------------ one envelope, lock by lock

  datatype Arrival = Arrival(env: Envelope, from: Provenance)

  /** One bus, between a user and an agent of theirs. */
  datatype Local = Local(user: Peer, agent: Peer)

  /** The nonce cache, the tracker and the reply waiters, each under a lock of its own. */
  datatype InboxState = InboxState(order: seq<Nonce>, marks: Marks, exchange: Exchange)

  const NOTHING_HEARD := InboxState([], map[], QUIET)

  /** What became of an envelope: handed to its handlers; a reply that took its waiter, one
      nobody waits for, or one whose waiter awaits another peer; or turned away. */
  datatype Handled =
    | Dispatched(message: Message)
    | Delivering(token: nat)
    | Unawaited
    | WrongResponder(waiter: Waiting)
    | Rejected(error: BusError)

  /** The lock the envelope's task takes next: the waiters' for a look, the cache's, the
      tracker's, the waiters' to deliver. */
  datatype Stage = Fresh | Checked | NonceSpent | MarkMoved | Over(handled: Handled)

  /** An envelope's task. `since` is how many registrations there had been when it was
      checked. */
  datatype Task = Task(a: Arrival, since: nat, stage: Stage)

  /** The waiter that awaits another peer than this reply's signer, if one does. */
  function WrongWaiter(ws: Waiters, env: Envelope): Option<Waiting> {
    if env.message.Some? && env.message.value.Reply? && CheckPeer(ws, env.message.value.correlation, env.agent).Mismatch?
    then Some(ws[env.message.value.correlation])
    else None
  }

  /** What an envelope past the tracker comes to, given the waiters it finds. */
  function HandedOn(ws: Waiters, env: Envelope): Handled {
    match env.message
    case None => Rejected(Malformed)
    case Some(Reply(id, _)) =>
      (match CheckPeer(ws, id, env.agent)
       case Unknown => Unawaited
       case Expected => Delivering(ws[id].token)
       case Mismatch(_) => WrongResponder(ws[id]))
    case Some(m) => Dispatched(m)
  }

  /** A task's next turn under one lock: what it leaves of the inbox, and the task after it. */
  function TaskTurn(l: Local, x: InboxState, t: Task): (InboxState, Task) {
    var env := t.a.env;
    match t.stage
    case Fresh =>
      var t' := t.(since := |x.exchange.made|);
      (x,
       match Admit(env, t.a.from, l.user, l.agent)
       case Err(e) => t'.(stage := Over(Rejected(e)))
       case Ok(_) =>
         match WrongWaiter(x.exchange.waiters, env)
         case Some(w) => t'.(stage := Over(WrongResponder(w)))
         case None => t'.(stage := Checked))
    case Checked =>
      var (fresh_, order) := NonceChecked(x.order, NONCE_CAPACITY, env.nonce);
      (x.(order := order), t.(stage := if fresh_ then NonceSpent else Over(Rejected(Replayed))))
    case NonceSpent =>
      var (r, marks) := Advance(x.marks, env.agent, env.sequence);
      (x.(marks := marks),
       t.(stage := if r.Ok? then MarkMoved else Over(Rejected(BadSequence(r.error.0, r.error.1)))))
    case MarkMoved =>
      (if env.message.Some? && env.message.value.Reply?
       then x.(exchange := Exchanged(x.exchange, Takes(env.message.value.correlation, env.agent, env.message.value.body)))
       else x,
       t.(stage := Over(HandedOn(x.exchange.waiters, env))))
    case Over(_) => (x, t)
  }

  class Inbox {
    const nonces: NonceCache
    const tracker: SequenceTracker
    const replies: ReplyWaiter

    ghost predicate Valid()
      reads nonces, replies
    {
      nonces.Valid() && nonces.capacity == NONCE_CAPACITY && replies.Valid()
    }

    ghost function View(): InboxState
      reads nonces, tracker, replies
    {
      InboxState(nonces.order, tracker.marks, replies.View())
    }

    constructor ()
      ensures Valid() && View() == NOTHING_HEARD && fresh(nonces) && fresh(tracker) && fresh(replies)
    {
      nonces := new NonceCache(NONCE_CAPACITY);
      tracker := new SequenceTracker();
      replies := new ReplyWaiter();
    }

    /** Admission, and for a reply a look at who is awaited, before anything is changed. */
    method Check(l: Local, t: Task) returns (t': Task)
      requires Valid() && t.stage.Fresh?
      ensures (View(), t') == TaskTurn(l, View(), t)
    {
      t' := t.(since := replies.nextToken);
      var admitted := Admit(t.a.env, t.a.from, l.user, l.agent);
      if admitted.Err? {
        return t'.(stage := Over(Rejected(admitted.error)));
      }
      var wrong := WrongWaiter(replies.waiters, t.a.env);
      return t'.(stage := if wrong.Some? then Over(WrongResponder(wrong.value)) else Checked);
    }

    method SpendNonce(l: Local, t: Task) returns (t': Task)
      requires Valid() && t.stage.Checked?
      modifies nonces
      ensures Valid() && (View(), t') == TaskTurn(l, old(View()), t)
    {
      hide NonceCache.Valid, NonceChecked;
      var ok := nonces.CheckAndInsert(t.a.env.nonce);
      return t.(stage := if ok then NonceSpent else Over(Rejected(Replayed)));
    }

    method MoveMark(l: Local, t: Task) returns (t': Task)
      requires Valid() && t.stage.NonceSpent?
      modifies tracker
      ensures Valid() && (View(), t') == TaskTurn(l, old(View()), t)
    {
      hide NonceCache.Valid;
      var r := tracker.CheckAndAdvance(t.a.env.agent, t.a.env.sequence);
      return t.(stage := if r.Ok? then MarkMoved else Over(Rejected(BadSequence(r.error.0, r.error.1))));
    }

    method HandOn(l: Local, t: Task) returns (t': Task)
      requires Valid() && t.stage.MarkMoved?
      modifies replies
      ensures Valid() && (View(), t') == TaskTurn(l, old(View()), t)
    {
      hide NonceCache.Valid;
      var env := t.a.env;
      if env.message.None? {
        return t.(stage := Over(Rejected(Malformed)));
      }
      if !env.message.value.Reply? {
        return t.(stage := Over(Dispatched(env.message.value)));
      }
      var check, found := replies.TakeFor(env.message.value.correlation, env.agent, env.message.value.body);
      match check {
        case Unknown => return t.(stage := Over(Unawaited));
        case Expected => return t.(stage := Over(Delivering(found.value.token)));
        case Mismatch(_) => return t.(stage := Over(WrongResponder(found.value)));
      }
    }

    /** A whole envelope with nothing in between: each lock in turn, until it is over. */
    method Receive(l: Local, a: Arrival) returns (h: Handled)
      requires Valid()
      modifies nonces, tracker, replies
      ensures Valid() && (View(), Over(h)) == Alone(l, old(View()), a)
    {
      hide TaskTurn, NonceCache.Valid, View;
      ghost var x := View();
      var t := Check(l, Task(a, 0, Fresh));
      TurnGoesOn(l, x, Task(a, 0, Fresh));
      TurnGoesOn(l, x, t);
      if t.stage.Checked? {
        t := SpendNonce(l, t);
      }
      x := View();
      TurnGoesOn(l, x, t);
      if t.stage.NonceSpent? {
        t := MoveMark(l, t);
      }
      x := View();
      TurnGoesOn(l, x, t);
      if t.stage.MarkMoved? {
        t := HandOn(l, t);
      }
      return t.stage.handled;
    }
  }

  /** Each turn takes a task on, and one that is over stays so. */
  lemma TurnGoesOn(l: Local, x: InboxState, t: Task)
    ensures
      var (x', t') := TaskTurn(l, x, t);
      && t'.a == t.a
      && match t.stage
         case Fresh => (t'.stage.Checked? || t'.stage.Over?) && x' == x
         case Checked => t'.stage.NonceSpent? || t'.stage.Over?
         case NonceSpent => t'.stage.MarkMoved? || t'.stage.Over?
         case MarkMoved => t'.stage.Over?
         case Over(_) => x' == x && t' == t
  {
    hide NonceChecked, Advance, Exchanged, Admit;
  }

  /** Four turns in a row. */
  function Alone(l: Local, x: InboxState, a: Arrival): (InboxState, Stage) {
    var (x1, t1) := TaskTurn(l, x, Task(a, 0, Fresh));
    var (x2, t2) := TaskTurn(l, x1, t1);
    var (x3, t3) := TaskTurn(l, x2, t2);
    var (x4, t4) := TaskTurn(l, x3, t3);
    (x4, t4.stage)
  }
}

/** Session streams: full-duplex conversations of exact-next signed frames. */
module SessionStreamModel {
  import opened Results
  import opened ReplayModel
  import opened ReplyModel
  import opened InboxModel

  type SessionId = nat

  datatype Body = OpenBody(topic: string) | Accept | Refuse(reason: string) | Data(body: Bytes) | Keepalive | CloseBody

  /** A frame's envelope: who signed it and for whom, its position, its session and body
      (none when the payload does not parse). */
  datatype Signed = Signed(
    verifies: bool, agent: Peer, user: Peer, recipient: Recipient, sequence: nat, frame: Option<(SessionId, Body)>)

  /** One end's view of a session: its id, this agent, the other, and their user. */
  datatype Link = Link(id: SessionId, self: Peer, peer: Peer, user: Peer)

  // ------------------------------------------------------------------ writing

  /** How a write ends: flushed; torn, by an error or a cancellation after the frame was
      begun; or never begun, the caller having been cancelled while it waited its turn. */
  datatype WriteEnd = Flushed | Torn | NeverBegun

  /** Where a writer is, and every frame it has signed, whether or not it went out whole. */
  datatype Outgoing = Outgoing(nextSeq: nat, intact: bool, framed: seq<Signed>)

  const NOTHING_SENT := Outgoing(0, true, [])

  function FrameOf(l: Link, sequence: nat, body: Body): Signed {
    Signed(true, l.self, l.user, Direct(l.peer), sequence, Some((l.id, body)))
  }

  function Wrote(l: Link, w: Outgoing, body: Body, end: WriteEnd): (bool, Outgoing) {
    if !w.intact || end.NeverBegun? then (false, w)
    else
      var framed := w.framed + [FrameOf(l, w.nextSeq, body)];
      if end.Torn? then (false, Outgoing(w.nextSeq, false, framed))
      else (true, Outgoing(w.nextSeq + 1, true, framed))
  }

  class Writer {
    const link: Link
    var nextSeq: nat
    var intact: bool
    ghost var framed: seq<Signed>

    ghost function View(): Outgoing
      reads this
    {
      Outgoing(nextSeq, intact, framed)
    }

    constructor (link: Link)
      ensures this.link == link && View() == NOTHING_SENT
    {
      this.link, nextSeq, intact, framed := link, 0, true, [];
    }

    /** Sign the next frame and send it: while it is going out the writer is not intact, so
        a torn frame is never followed by another. */
    method Write(body: Body, end: WriteEnd) returns (ok: bool)
      modifies this
      ensures (ok, View()) == Wrote(link, old(View()), body, end)
    {
      if !intact || end.NeverBegun? {
        return false;
      }
      var env := FrameOf(link, nextSeq, body);
      framed := framed + [env];
      intact := false;
      if end.Torn? {
        return false;
      }
      intact := true;
      nextSeq := nextSeq + 1;
      return true;
    }

    /** Say goodbye and finish the stream. */
    method Close(end: WriteEnd) returns (ok: bool)
      modifies this
      ensures
        var (wrote, w) := Wrote(link, old(View()), CloseBody, end);
        ok == wrote && View() == if wrote then w.(intact := false) else w
    {
      ok := Write(CloseBody, end);
      if ok {
        intact := false;
      }
    }
  }

  datatype WriteStep = Writes(body: Body, end: WriteEnd) | Shuts

  function WriteTaken(l: Link, w: Outgoing, s: WriteStep): Outgoing {
    match s
    case Writes(body, end) => Wrote(l, w, body, end).1
    case Shuts => w.(intact := false)
  }

  /** A writer after any mix of sends, keepalives and a close, each ending however it may. */
  function Written(l: Link, steps: seq<WriteStep>): Outgoing {
    if |steps| == 0 then NOTHING_SENT else WriteTaken(l, Written(l, steps[..|steps| - 1]), steps[|steps| - 1])
  }

  /** The frame at this position: this session's, for its peer, with this sequence. */
  ghost predicate IsFrame(l: Link, s: Signed, i: nat) {
    exists body :: s == FrameOf(l, i, body)
  }

  ghost predicate Numbered(l: Link, framed: seq<Signed>) {
    forall i: nat {:trigger IsFrame(l, framed[i], i)} :: i < |framed| ==> IsFrame(l, framed[i], i)
  }

  /** No sequence of a session is framed twice: the frames signed are numbered 0, 1, 2 and so
      on, each this session's and for its peer, even when sends are cancelled mid-frame. */
  lemma {:induction false} FramedOnceEach(l: Link, steps: seq<WriteStep>)
    ensures
      var w := Written(l, steps);
      && Numbered(l, w.framed)
      && (if w.intact then |w.framed| == w.nextSeq else w.nextSeq <= |w.framed| <= w.nextSeq + 1)
  {
    if |steps| > 0 {
      FramedOnceEach(l, steps[..|steps| - 1]);
      var w, w' := Written(l, steps[..|steps| - 1]), Written(l, steps);
      forall i: nat | i < |w'.framed|
        ensures IsFrame(l, w'.framed[i], i)
      {
        if i < |w.framed| {
          assert w'.framed[i] == w.framed[i] && IsFrame(l, w.framed[i], i);
        } else {
          assert w'.framed[i] == FrameOf(l, i, steps[|steps| - 1].body);
        }
      }
    }
  }

  // ------------------------------------------------------------------ reading

  /** What the carrier brings, in the order it brings it. */
  datatype Arriving = Frame(env: Signed) | Ended | IdleOut | BusGone | Broken

  datatype StreamError = NotRunning | TimedOut | PeerDisconnected | CarrierFailed
                       | NotAdmitted | OutOfSequence(expected: nat, actual: nat) | Unparsed | AnotherSession
                       | Refused(reason: string) | Unexpected | AlreadyFailed

  datatype Incoming = Incoming(nextSeq: nat, closed: bool, failed: bool)

  /** The frame verifies, the session's own peer signed it for this user, and it is for here. */
  predicate FrameAdmitted(l: Link, env: Signed) {
    && env.verifies && env.agent == l.peer && env.user == l.user
    && (env.recipient.Direct? ==> env.recipient.agent == l.self)
  }

  /** One frame read: its body, and the receiver after it. Any failure is remembered. */
  function FrameRead(l: Link, r: Incoming, a: Arriving): (Result<Body, StreamError>, Incoming) {
    if r.failed then (Err(AlreadyFailed), r)
    else
      match a
      case Ended => (Err(PeerDisconnected), r.(failed := true))
      case IdleOut => (Err(TimedOut), r.(failed := true))
      case BusGone => (Err(NotRunning), r.(failed := true))
      case Broken => (Err(CarrierFailed), r.(failed := true))
      case Frame(env) =>
        if !FrameAdmitted(l, env) then (Err(NotAdmitted), r.(failed := true))
        else if env.sequence != r.nextSeq then (Err(OutOfSequence(r.nextSeq, env.sequence)), r.(failed := true))
        else if env.frame.None? then (Err(Unparsed), r.(nextSeq := r.nextSeq + 1, failed := true))
        else if env.frame.value.0 != l.id then (Err(AnotherSession), r.(nextSeq := r.nextSeq + 1, failed := true))
        else (Ok(env.frame.value.1), r.(nextSeq := r.nextSeq + 1))
  }

  /** What one `recv` returns: a message, the peer's goodbye, a failure, or nothing yet. */
  datatype Received = Message(body: Bytes) | Goodbye | Failure(error: StreamError) | NothingYet

  /** Keepalives are passed over; everything else ends the call. */
  function Recv(l: Link, r: Incoming, as_: seq<Arriving>, at: nat): (Received, Incoming, nat)
    requires at <= |as_|
    decreases |as_| - at
  {
    if r.closed then (Goodbye, r, at)
    else if r.failed then (Failure(AlreadyFailed), r, at)
    else if at == |as_| then (NothingYet, r, at)
    else
      var (read, r') := FrameRead(l, r, as_[at]);
      match read
      case Err(e) => (Failure(e), r', at + 1)
      case Ok(Data(body)) => (Message(body), r', at + 1)
      case Ok(Keepalive) => Recv(l, r', as_, at + 1)
      case Ok(CloseBody) => (Goodbye, r'.(closed := true), at + 1)
      case Ok(_) => (Failure(Unexpected), r'.(failed := true), at + 1)
  }

  class SessionReceiver {
    const link: Link
    const arriving: seq<Arriving>
    var at: nat
    var nextSeq: nat
    var closed: bool
    var failed: bool

    ghost predicate Valid()
      reads this
    {
      at <= |arriving|
    }

    function View(): Incoming
      reads this
    {
      Incoming(nextSeq, closed, failed)
    }

    constructor (link: Link, arriving: seq<Arriving>, nextSeq: nat)
      ensures Valid() && this.link == link && this.arriving == arriving && at == 0 && View() == Incoming(nextSeq, false, false)
    {
      this.link, this.arriving, at, this.nextSeq, closed, failed := link, arriving, 0, nextSeq, false, false;
    }

    method NextFrame() returns (r: Result<Body, StreamError>)
      requires Valid() && at < |arriving|
      modifies this
      ensures Valid() && at == old(at) + (if old(failed) then 0 else 1) && closed == old(closed)
      ensures (r, View()) == FrameRead(link, old(View()), arriving[old(at)])
    {
      if failed {
        return Err(AlreadyFailed);
      }
      r := ReadFrame();
      failed := r.Err?;
    }

    method ReadFrame() returns (r: Result<Body, StreamError>)
      requires Valid() && at < |arriving| && !failed
      modifies this`at, this`nextSeq
      ensures Valid() && at == old(at) + 1
      ensures (r, View().(failed := r.Err?)) == FrameRead(link, old(View()), arriving[old(at)])
    {
      var a := arriving[at];
      at := at + 1;
      match a {
        case Ended => return Err(PeerDisconnected);
        case IdleOut => return Err(TimedOut);
        case BusGone => return Err(NotRunning);
        case Broken => return Err(CarrierFailed);
        case Frame(env) =>
          if !FrameAdmitted(link, env) {
            return Err(NotAdmitted);
          }
          if env.sequence != nextSeq {
            return Err(OutOfSequence(nextSeq, env.sequence));
          }
          nextSeq := nextSeq + 1;
          if env.frame.None? {
            return Err(Unparsed);
          }
          if env.frame.value.0 != link.id {
            return Err(AnotherSession);
          }
          return Ok(env.frame.value.1);
      }
    }

    method Receive() returns (m: Received)
      requires Valid()
      modifies this
      ensures Valid()
      ensures (m, View(), at) == Recv(link, old(View()), arriving, old(at))
    {
      hide FrameRead;
      if closed {
        return Goodbye;
      }
      while true
        invariant Valid() && !closed
        invariant Recv(link, old(View()), arriving, old(at)) == Recv(link, View(), arriving, at)
        decreases |arriving| - at
      {
        if failed {
          return Failure(AlreadyFailed);
        }
        if at == |arriving| {
          return NothingYet;
        }
        var read := NextFrame();
        if read.Err? {
          return Failure(read.error);
        }
        match read.value {
          case Data(body) => return Message(body);
          case Keepalive =>
          case CloseBody =>
            closed := true;
            return Goodbye;
          case _ =>
            failed := true;
            return Failure(Unexpected);
        }
      }
    }
  }

  // ------------------------------------------------------------------ what gets through

  /** What the peer's writer signed is all there is of this session in the peer's name for
      this end: whatever else the carrier brings fails to verify, is somebody else's, is for
      somebody else, or is of another session. */
  ghost predicate Genuine(l: Link, framed: seq<Signed>, a: Arriving) {
    a.Frame? && a.env.verifies && a.env.agent == l.peer && a.env.frame.Some? && a.env.frame.value.0 == l.id
    && (a.env.recipient.Direct? ==> a.env.recipient.agent == l.self) ==>
      a.env in framed
  }

  /** The bodies of a run of frames, from a position on. */
  function BodiesFrom(framed: seq<Signed>, from: nat): seq<Bytes>
    decreases |framed| - from
  {
    if from >= |framed| then []
    else
      var rest := BodiesFrom(framed, from + 1);
      match framed[from].frame
      case Some((_, Data(body))) => [body] + rest
      case _ => rest
  }

  /** Everything repeated calls of `recv` return, over what has arrived. */
  function Messages(l: Link, r: Incoming, as_: seq<Arriving>, at: nat): seq<Bytes>
    requires at <= |as_|
    decreases |as_| - at
  {
    if r.closed || r.failed || at == |as_| then []
    else
      var (read, r') := FrameRead(l, r, as_[at]);
      match read
      case Err(_) => []
      case Ok(Data(body)) => [body] + Messages(l, r', as_, at + 1)
      case Ok(Keepalive) => Messages(l, r', as_, at + 1)
      case Ok(_) => []
  }

  /** `Messages` is what the calls return: each message is the next of it; a call that returns
      anything else ends it; and once it has failed or been told goodbye, a receiver never
      yields a message again, whatever arrives. */
  lemma {:induction false} MessagesAreReceived(l: Link, r: Incoming, as_: seq<Arriving>, at: nat)
    requires at <= |as_|
    ensures
      var (m, r', at') := Recv(l, r, as_, at);
      && at <= at' <= |as_|
      && (m.Message? ==> Messages(l, r, as_, at) == [m.body] + Messages(l, r', as_, at'))
      && (!m.Message? ==> Messages(l, r, as_, at) == [])
      && (m.Failure? ==> r'.failed) && (m.Goodbye? ==> r'.closed)
      && (m.Failure? || m.Goodbye? ==> forall more, n: nat :: n <= |more| ==> Messages(l, r', more, n) == [])
    decreases |as_| - at
  {
    if !r.closed && !r.failed && at < |as_| {
      var (read, r') := FrameRead(l, r, as_[at]);
      if read == Ok(Keepalive) {
        MessagesAreReceived(l, r', as_, at + 1);
      }
    }
  }

  /** A frame that is read is exactly the peer's next. */
  lemma ReadIsNext(l: Link, peerLink: Link, framed: seq<Signed>, r: Incoming, a: Arriving)
    requires Numbered(peerLink, framed)
    requires Genuine(l, framed, a) && FrameRead(l, r, a).0.Ok?
    ensures r.nextSeq < |framed| && framed[r.nextSeq].frame == Some((l.id, FrameRead(l, r, a).0.value))
    ensures FrameRead(l, r, a).1 == r.(nextSeq := r.nextSeq + 1) && !r.failed
  {
    var i: nat :| i < |framed| && framed[i] == a.env;
    assert IsFrame(peerLink, framed[i], i);
    var body :| framed[i] == FrameOf(peerLink, i, body);
  }

  /**
   However the carrier drops, repeats or reorders frames, or splices in signed frames of
   other sessions: the bodies `recv` returns are a prefix, in order, of the data bodies the
   peer framed from the position the receiver began at.
   */
  lemma {:induction false} ReceivedIsAPrefix(
    l: Link, peerLink: Link, steps: seq<WriteStep>, r: Incoming, as_: seq<Arriving>, at: nat)
    requires at <= |as_|
    requires forall k {:trigger as_[k]} :: 0 <= k < |as_| ==> Genuine(l, Written(peerLink, steps).framed, as_[k])
    ensures Messages(l, r, as_, at) <= BodiesFrom(Written(peerLink, steps).framed, r.nextSeq)
    decreases |as_| - at
  {
    hide FrameRead, Genuine, Written, Numbered;
    var framed := Written(peerLink, steps).framed;
    FramedOnceEach(peerLink, steps);
    if !r.closed && !r.failed && at < |as_| && FrameRead(l, r, as_[at]).0.Ok? {
      ReadIsNext(l, peerLink, framed, r, as_[at]);
      ReceivedIsAPrefix(l, peerLink, steps, FrameRead(l, r, as_[at]).1, as_, at + 1);
    }
  }

  // ------------------------------------------------------------------ among every session there is

  /** One direction of one session: the link as its writer sees it, and what it wrote. */
  datatype Direction = Direction(link: Link, steps: seq<WriteStep>)

  /** Signatures are not forged: a session frame that verifies is one that some writer of its
      signer framed. */
  ghost predicate Unforged(world: seq<Direction>, a: Arriving) {
    a.Frame? && a.env.verifies && a.env.frame.Some? ==>
      exists k :: 0 <= k < |world| && a.env in Written(world[k].link, world[k].steps).framed
  }

  predicate SameEnd(a: Link, b: Link) { a.id == b.id && a.self == b.self }

  /** Session ids are distinct, and the two ends of a session are distinct agents: each
      agent writes one direction of a session at most. */
  ghost predicate OneWriterEach(world: seq<Direction>) {
    forall i, j :: 0 <= i < |world| && 0 <= j < |world| && SameEnd(world[i].link, world[j].link) ==> i == j
  }

  lemma UnforgedIsGenuine(world: seq<Direction>, k: nat, l: Link, a: Arriving)
    requires OneWriterEach(world) && k < |world| && world[k].link.id == l.id && world[k].link.self == l.peer
    requires Unforged(world, a)
    ensures Genuine(l, Written(world[k].link, world[k].steps).framed, a)
  {
    hide Written;
    if a.Frame? && a.env.verifies && a.env.agent == l.peer && a.env.frame.Some? && a.env.frame.value.0 == l.id {
      var j :| 0 <= j < |world| && a.env in Written(world[j].link, world[j].steps).framed;
      FramedOnceEach(world[j].link, world[j].steps);
      var framed := Written(world[j].link, world[j].steps).framed;
      var i: nat :| i < |framed| && framed[i] == a.env;
      assert IsFrame(world[j].link, framed[i], i);
    }
  }

  /** Of all the frames of all the sessions anyone ever wrote, in whatever order and however
      often a carrier brings them, a receiver returns only its own peer's words of its own
      session, in order, from the first on. */
  lemma OnlyThePeersWords(world: seq<Direction>, k: nat, l: Link, r: Incoming, as_: seq<Arriving>)
    requires OneWriterEach(world) && k < |world| && world[k].link.id == l.id && world[k].link.self == l.peer
    requires forall i :: 0 <= i < |as_| ==> Unforged(world, as_[i])
    ensures Messages(l, r, as_, 0) <= BodiesFrom(Written(world[k].link, world[k].steps).framed, r.nextSeq)
  {
    hide Unforged, Genuine, Written, Messages, BodiesFrom, OneWriterEach;
    forall i | 0 <= i < |as_|
      ensures Genuine(l, Written(world[k].link, world[k].steps).framed, as_[i])
    {
      UnforgedIsGenuine(world, k, l, as_[i]);
    }
    ReceivedIsAPrefix(l, world[k].link, world[k].steps, r, as_, 0);
  }

  // ------------------------------------------------------------------ opening

  /** The opener's verdict on the first frame back. */
  function Opened(l: Link, as_: seq<Arriving>): Result<Incoming, StreamError> {
    if |as_| == 0 then Err(TimedOut)
    else
      var (read, r) := FrameRead(l, Incoming(0, false, false), as_[0]);
      match read
      case Err(e) => Err(e)
      case Ok(Accept) => Ok(r)
      case Ok(Refuse(reason)) => Err(Refused(reason))
      case Ok(_) => Err(Unexpected)
  }

  /** The responder's end of the same session. */
  function Mirror(l: Link): Link { Link(l.id, l.peer, l.self, l.user) }

  /** Step `i` is the first that begins a frame: whatever came before it never began. */
  ghost predicate FirstBegun(steps: seq<WriteStep>, i: nat) {
    && i < |steps| && steps[i].Writes? && !steps[i].end.NeverBegun?
    && forall j :: 0 <= j < i ==> steps[j].Writes? && steps[j].end.NeverBegun?
  }

  /** Frame 0 is the first write begun, however that write ended. */
  lemma {:induction false} FrameZeroIsFirstBegun(l: Link, steps: seq<WriteStep>)
    ensures
      var w := Written(l, steps);
      && (w.framed == [] ==>
            && w.nextSeq == 0 && (w.intact <==> forall j :: 0 <= j < |steps| ==> steps[j].Writes?)
            && forall i: nat :: !FirstBegun(steps, i))
      && (w.framed != [] ==> exists i: nat :: FirstBegun(steps, i) && w.framed[0] == FrameOf(l, 0, steps[i].body))
  {
    if |steps| > 0 {
      var n := |steps| - 1;
      var init := steps[..n];
      FrameZeroIsFirstBegun(l, init);
      var w, w' := Written(l, init), Written(l, steps);
      assert forall i: nat :: i < n ==> (FirstBegun(steps, i) <==> FirstBegun(init, i));
      if w.framed != [] {
        var i: nat :| FirstBegun(init, i) && w.framed[0] == FrameOf(l, 0, init[i].body);
        assert FirstBegun(steps, i) && w'.framed[0] == w.framed[0];
      } else {
        NothingBegun(init);
        if w'.framed != [] {
          assert FirstBegun(steps, n) && w'.framed[0] == FrameOf(l, 0, steps[n].body);
        }
      }
    }
  }

  /** If only writes were asked for and none was the first begun, none was begun at all. */
  lemma {:induction false} NothingBegun(steps: seq<WriteStep>)
    requires forall i: nat :: !FirstBegun(steps, i)
    ensures (forall j :: 0 <= j < |steps| ==> steps[j].Writes?) ==>
              forall j :: 0 <= j < |steps| ==> steps[j].end.NeverBegun?
  {
    if |steps| > 0 && forall j :: 0 <= j < |steps| ==> steps[j].Writes? {
      var n := |steps| - 1;
      var init := steps[..n];
      forall i: nat
        ensures !FirstBegun(init, i)
      {
        assert !FirstBegun(steps, i);
      }
      NothingBegun(init);
      assert !FirstBegun(steps, n);
      assert forall j :: 0 <= j < n ==> steps[j] == init[j];
    }
  }

  /** The first frame begun has this body, and is what arrived first. */
  ghost predicate ArrivedFirst(l: Link, steps: seq<WriteStep>, as_: seq<Arriving>, body: Body) {
    && |as_| > 0 && as_[0] == Frame(FrameOf(Mirror(l), 0, body))
    && exists i: nat :: FirstBegun(steps, i) && steps[i].body == body
  }

  /**
   Exactly when a session opens, and when it is refused: the first thing to arrive is the
   responder's frame 0, and the first frame the responder began writing is its verdict. The
   keepalive shares the responder's writer, so a handler that takes longer to decide than
   the keepalive interval begins a keepalive first, flushed or torn, and no later verdict is
   ever taken.
   */
  lemma OpensExactly(l: Link, steps: seq<WriteStep>, as_: seq<Arriving>)
    requires |as_| > 0 ==> Genuine(l, Written(Mirror(l), steps).framed, as_[0])
    ensures
      var framed := Written(Mirror(l), steps).framed;
      && (Opened(l, as_).Ok? <==>
            |as_| > 0 && |framed| > 0 && as_[0] == Frame(framed[0]) && framed[0].frame == Some((l.id, Accept)))
      && (Opened(l, as_).Ok? <==> ArrivedFirst(l, steps, as_, Accept))
      && (forall reason :: Opened(l, as_) == Err(Refused(reason)) <==> ArrivedFirst(l, steps, as_, Refuse(reason)))
  {
    hide Written, Numbered, Genuine;
    var framed := Written(Mirror(l), steps).framed;
    FramedOnceEach(Mirror(l), steps);
    FrameZeroIsFirstBegun(Mirror(l), steps);
    FrameAt(Mirror(l), framed);
    if |as_| > 0 && FrameRead(l, Incoming(0, false, false), as_[0]).0.Ok? {
      FirstIsFrameZero(l, framed, as_[0]);
    }
    OneFirst(steps);
  }

  lemma FrameAt(l: Link, framed: seq<Signed>)
    requires Numbered(l, framed)
    ensures |framed| > 0 ==> IsFrame(l, framed[0], 0)
  {
  }

  /** A genuine frame that is read first is the peer's frame 0 itself. */
  lemma FirstIsFrameZero(l: Link, framed: seq<Signed>, a: Arriving)
    requires Numbered(Mirror(l), framed) && Genuine(l, framed, a) && FrameRead(l, Incoming(0, false, false), a).0.Ok?
    ensures |framed| > 0 && a == Frame(framed[0]) && framed[0].frame == Some((l.id, FrameRead(l, Incoming(0, false, false), a).0.value))
  {
    var i: nat :| i < |framed| && framed[i] == a.env;
    assert IsFrame(Mirror(l), framed[i], i);
  }

  lemma OneFirst(steps: seq<WriteStep>)
    ensures forall i: nat, j: nat :: FirstBegun(steps, i) && FirstBegun(steps, j) ==> i == j
  {
  }

  /** A session that opened receives only what the responder framed after its accept. */
  lemma OpenedReceives(l: Link, peerLink: Link, steps: seq<WriteStep>, as_: seq<Arriving>)
    requires forall k {:trigger as_[k]} :: 0 <= k < |as_| ==> Genuine(l, Written(peerLink, steps).framed, as_[k])
    requires Opened(l, as_).Ok?
    ensures Opened(l, as_).value == Incoming(1, false, false)
    ensures Messages(l, Opened(l, as_).value, as_, 1) <= BodiesFrom(Written(peerLink, steps).framed, 1)
  {
    hide FrameRead, Genuine, Written, Numbered;
    FramedOnceEach(peerLink, steps);
    ReadIsNext(l, peerLink, Written(peerLink, steps).framed, Incoming(0, false, false), as_[0]);
    ReceivedIsAPrefix(l, peerLink, steps, Opened(l, as_).value, as_, 1);
  }
}

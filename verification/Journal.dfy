/** The journal of published frames, resume tokens, and cursors under every interleaving. */
module JournalModel {
  import opened Results
  import opened Schema
  import opened FlockLaws
  import opened ServerModel

  /** A resume token: the last record a follower verified, as the server signed it. */
  datatype Head = Head(record: RecordNode, sig: Sig) {
    function Index(): nat { record.payload.index }
  }

  function HeadOf(s: Sealed): Head { Head(s.record, s.recordSig) }

  function LastIndex(f: Frame): nat {
    if |f| == 0 then 0 else f[|f| - 1].record.payload.index
  }

  /** Where a resume token puts a cursor, or why it cannot be honoured. `OutOfBounds` is a
      token of index 0 against an empty journal, which reads past the end. */
  datatype Resume = From(next: nat) | Behind(have: nat) | Diverged | NotABoundary | OutOfBounds

  // ------------------------------------------------------------------ journals the server publishes

  /** Contiguous non-empty frames: the entries carry 1, 2, 3 and so on. */
  ghost predicate Contiguous(frames: seq<Frame>) {
    && (forall i {:trigger frames[i]} :: 0 <= i < |frames| ==> |frames[i]| > 0)
    && (forall k {:trigger Flat(frames)[k]} :: 0 <= k < |Flat(frames)| ==> Flat(frames)[k].record.payload.index == k + 1)
  }

  lemma {:induction false} FlatGrows(frames: seq<Frame>, i: nat, j: nat)
    requires i <= j <= |frames|
    ensures Flat(frames[..i]) <= Flat(frames[..j])
    decreases j
  {
    if i < j {
      FlatGrows(frames, i, j - 1);
      assert frames[..j][..j - 1] == frames[..j - 1];
    } else {
      assert frames[..i] == frames[..j];
    }
  }

  /** A frame's last index is how many entries there are up to its end. */
  lemma FrameEnds(frames: seq<Frame>, i: nat)
    requires Contiguous(frames) && i < |frames|
    ensures |Flat(frames[..i])| < |Flat(frames[..i + 1])| <= |Flat(frames)|
    ensures |frames[i]| > 0 && LastIndex(frames[i]) == |Flat(frames[..i + 1])|
    ensures frames[i][|frames[i]| - 1] == Flat(frames)[|Flat(frames[..i + 1])| - 1]
  {
    FlatGrows(frames, i + 1, |frames|);
    assert frames[..|frames|] == frames;
    assert frames[..i + 1][..i] == frames[..i];
    var k := |Flat(frames[..i + 1])| - 1;
    assert Flat(frames)[k] == Flat(frames[..i + 1])[k];
  }

  lemma EndsIncrease(frames: seq<Frame>, i: nat, j: nat)
    requires Contiguous(frames) && i < j < |frames|
    ensures LastIndex(frames[i]) < LastIndex(frames[j])
  {
    FrameEnds(frames, i);
    FrameEnds(frames, j);
    FlatGrows(frames, i + 1, j);
  }

  /** The first frame whose last index reaches `at`: a binary search. */
  method PartitionPoint(frames: seq<Frame>, at: nat) returns (pos: nat)
    requires Contiguous(frames)
    ensures pos <= |frames|
    ensures forall i :: 0 <= i < pos ==> LastIndex(frames[i]) < at
    ensures forall i :: pos <= i < |frames| ==> LastIndex(frames[i]) >= at
  {
    var low, high := 0, |frames|;
    while low < high
      invariant low <= high <= |frames|
      invariant forall i :: 0 <= i < low ==> LastIndex(frames[i]) < at
      invariant forall i :: high <= i < |frames| ==> LastIndex(frames[i]) >= at
    {
      var mid := low + (high - low) / 2;
      if LastIndex(frames[mid]) < at {
        forall i | 0 <= i < mid
          ensures LastIndex(frames[i]) < at
        {
          EndsIncrease(frames, i, mid);
        }
        low := mid + 1;
      } else {
        forall i | mid < i < |frames|
          ensures LastIndex(frames[i]) >= at
        {
          EndsIncrease(frames, mid, i);
        }
        high := mid;
      }
    }
    return low;
  }

  // ------------------------------------------------------------------ where a token resumes

  /** The token's index is the end of the first `n` frames. */
  ghost predicate EndsAt(frames: seq<Frame>, n: int, at: nat) {
    0 <= n <= |frames| && |Flat(frames[..n])| == at
  }

  /** What resuming from a token means, said without any search: behind when it is past the
      end; not a boundary when no whole number of frames ends there; diverged when the record
      there is another; otherwise just after the frames it has seen. */
  ghost predicate ResumesAt(frames: seq<Frame>, head: Option<Head>, r: Resume) {
    match head
    case None => r == From(0)
    case Some(h) =>
      var total := |Flat(frames)|;
      if h.Index() == 0 then r == if frames == [] then OutOfBounds else NotABoundary
      else if h.Index() > total then r == Behind(total)
      else if !exists n :: EndsAt(frames, n, h.Index()) then r == NotABoundary
      else if Flat(frames)[h.Index() - 1].record != h.record then r == Diverged
      else r.From? && EndsAt(frames, r.next, h.Index())
  }

  /** There is exactly one place a token resumes at. */
  lemma ResumeIsOnePlace(frames: seq<Frame>, head: Option<Head>, r: Resume, r': Resume)
    requires Contiguous(frames) && ResumesAt(frames, head, r) && ResumesAt(frames, head, r')
    ensures r == r'
  {
    if head.Some? && r.From? && r'.From? {
      if r.next < r'.next {
        FlatGrows(frames, r.next + 1, r'.next);
        FrameEnds(frames, r.next);
      } else if r'.next < r.next {
        FlatGrows(frames, r'.next + 1, r.next);
        FrameEnds(frames, r'.next);
      }
    }
  }

  lemma NoBoundaryInside(frames: seq<Frame>, pos: nat, at: nat)
    requires Contiguous(frames) && pos < |frames|
    requires |Flat(frames[..pos])| < at < |Flat(frames[..pos + 1])|
    ensures !exists n :: EndsAt(frames, n, at)
  {
    forall n | 0 <= n <= |frames|
      ensures !EndsAt(frames, n, at)
    {
      if n <= pos {
        FlatGrows(frames, n, pos);
      } else {
        FlatGrows(frames, pos + 1, n);
      }
    }
  }

  class Journal {
    var frames: seq<Published>
    var stopped: bool

    ghost predicate Valid()
      reads this
    {
      Contiguous(FramesOf(frames))
    }

    constructor (frames: seq<Published>)
      ensures this.frames == frames && !stopped
    {
      this.frames, this.stopped := frames, false;
    }

    method Publish(frame: Frame, eligible: set<string>)
      modifies this
      ensures frames == old(frames) + [Published(frame, eligible)] && stopped == old(stopped)
    {
      frames := frames + [Published(frame, eligible)];
    }

    method Stop()
      modifies this
      ensures stopped && frames == old(frames)
    {
      stopped := true;
    }

    /** How many events are published. */
    method Len() returns (n: nat)
      requires Valid()
      ensures n == |Flat(FramesOf(frames))|
    {
      if |frames| == 0 {
        return 0;
      }
      FrameEnds(FramesOf(frames), |frames| - 1);
      assert FramesOf(frames)[..|frames|] == FramesOf(frames);
      return LastIndex(frames[|frames| - 1].frame);
    }

    /** A cursor after `head`; the start, with none. */
    method CursorFrom(head: Option<Head>) returns (r: Resume)
      requires Valid()
      ensures ResumesAt(FramesOf(frames), head, r)
    {
      hide Contiguous, Flat, LastIndex;
      if head.None? {
        return From(0);
      }
      var h, fs := head.value, FramesOf(frames);
      var at := h.Index();
      var have := Len();
      if at > have {
        return Behind(have);
      }
      var pos := PartitionPoint(fs, at);
      if pos == |fs| {
        LastReaches(fs, at);
        return OutOfBounds;
      }
      SearchDecides(fs, h, pos);
      if LastIndex(fs[pos]) != at {
        return NotABoundary;
      }
      if RecordId(fs[pos][|fs[pos]| - 1].record) == RecordId(h.record) {
        return From(pos + 1);
      }
      return Diverged;
    }
  }

  /** Only an empty journal has no frame reaching an index it has. */
  lemma LastReaches(frames: seq<Frame>, at: nat)
    requires Contiguous(frames) && at <= |Flat(frames)|
    requires forall i :: 0 <= i < |frames| ==> LastIndex(frames[i]) < at
    ensures frames == [] && at == 0
  {
    assert frames[..|frames|] == frames;
    if |frames| > 0 {
      FrameEnds(frames, |frames| - 1);
    }
  }

  lemma BeforeFirst(frames: seq<Frame>)
    ensures Flat(frames[..0]) == []
  {
  }

  /** Where the search ends decides the outcome. */
  lemma SearchDecides(frames: seq<Frame>, h: Head, pos: nat)
    requires Contiguous(frames) && pos < |frames| && h.Index() <= |Flat(frames)|
    requires forall i :: 0 <= i < pos ==> LastIndex(frames[i]) < h.Index()
    requires LastIndex(frames[pos]) >= h.Index()
    ensures |frames[pos]| > 0
    ensures
      ResumesAt(frames, Some(h),
                if LastIndex(frames[pos]) != h.Index() then NotABoundary
                else if frames[pos][|frames[pos]| - 1].record == h.record then From(pos + 1)
                else Diverged)
  {
    hide Contiguous, Flat, LastIndex;
    FrameEnds(frames, pos);
    BeforeFirst(frames);
    if pos > 0 {
      FrameEnds(frames, pos - 1);
    }
    if LastIndex(frames[pos]) == h.Index() {
      assert EndsAt(frames, pos + 1, h.Index());
    } else if h.Index() > |Flat(frames[..pos])| {
      NoBoundaryInside(frames, pos, h.Index());
    }
  }

  // ------------------------------------------------------------------ cursors under every interleaving

  /** One turn under the journal's lock, whichever thread takes it. */
  datatype Turn = Publishes(p: Published) | Stops | Cancels | Polls

  datatype Poll = Ready(p: Published) | Finished | Waiting

  /** A journal and one cursor over it; `told` is everything the cursor returned. */
  datatype Reading = Reading(frames: seq<Published>, stopped: bool, next: nat, cancelled: bool, told: seq<Poll>)

  function PollOf(r: Reading): Poll {
    if r.cancelled then Finished
    else if r.next < |r.frames| then Ready(r.frames[r.next])
    else if r.stopped then Finished
    else Waiting
  }

  function TurnTaken(r: Reading, t: Turn): Reading {
    match t
    case Publishes(p) => r.(frames := r.frames + [p])
    case Stops => r.(stopped := true)
    case Cancels => r.(cancelled := true)
    case Polls =>
      var p := PollOf(r);
      if p.Waiting? then r
      else r.(next := if p.Ready? then r.next + 1 else r.next, told := r.told + [p])
  }

  function TurnsTaken(r: Reading, ts: seq<Turn>): Reading {
    if |ts| == 0 then r else TurnTaken(TurnsTaken(r, ts[..|ts| - 1]), ts[|ts| - 1])
  }

  class Cursor {
    const journal: Journal
    var next: nat
    var cancelled: bool

    constructor (journal: Journal, next: nat)
      ensures this.journal == journal && this.next == next && !cancelled
    {
      this.journal, this.next, this.cancelled := journal, next, false;
    }

    function View(): Reading
      reads this, journal
    {
      Reading(journal.frames, journal.stopped, next, cancelled, [])
    }

    method Cancel()
      modifies this
      ensures cancelled && next == old(next)
    {
      cancelled := true;
    }

    /** One look under the lock; `Waiting` is where the thread sleeps until a wake. */
    method TryNext() returns (p: Poll)
      modifies this`next
      ensures p == PollOf(old(View()))
      ensures next == old(next) + if p.Ready? then 1 else 0
    {
      if cancelled {
        return Finished;
      }
      if next < |journal.frames| {
        next := next + 1;
        return Ready(journal.frames[next - 1]);
      }
      if journal.stopped {
        return Finished;
      }
      return Waiting;
    }

    /** The next frame, looking again after each wake: what the other threads did meanwhile
        is applied in turn. */
    method NextFrame(wakes: seq<Turn>) returns (p: Poll, used: nat)
      requires forall i :: 0 <= i < |wakes| ==> !wakes[i].Polls?
      modifies this, journal
      ensures used <= |wakes|
      ensures
        var r := TurnsTaken(old(View()), wakes[..used]);
        && p == PollOf(r) && (p.Waiting? ==> used == |wakes|)
        && next == old(next) + (if p.Ready? then 1 else 0)
        && journal.frames == r.frames && journal.stopped == r.stopped && cancelled == r.cancelled
      ensures forall i :: 0 <= i < used ==> PollOf(TurnsTaken(old(View()), wakes[..i])).Waiting?
    {
      used := 0;
      while true
        invariant used <= |wakes|
        invariant View() == TurnsTaken(old(View()), wakes[..used])
        invariant next == old(next)
        invariant forall i :: 0 <= i < used ==> PollOf(TurnsTaken(old(View()), wakes[..i])).Waiting?
        decreases |wakes| - used
      {
        p := TryNext();
        if !p.Waiting? || used == |wakes| {
          return;
        }
        assert wakes[..used + 1][..used] == wakes[..used];
        match wakes[used] {
          case Publishes(x) => journal.Publish(x.frame, x.eligible);
          case Stops => journal.Stop();
          case Cancels => Cancel();
        }
        used := used + 1;
      }
    }
  }

  /** The frames a cursor was told. */
  function Delivered(told: seq<Poll>): seq<Published> {
    if |told| == 0 then []
    else
      Delivered(told[..|told| - 1]) + (if told[|told| - 1].Ready? then [told[|told| - 1].p] else [])
  }

  /** Under every interleaving with publish, stop and cancel, a cursor has been told exactly
      the frames from where it began to where it is: no gap, no repeat, nothing unpublished. */
  lemma {:induction false} NoGapNoRepeat(r: Reading, ts: seq<Turn>)
    requires r.next <= |r.frames| && r.told == []
    ensures
      var r' := TurnsTaken(r, ts);
      && r.next <= r'.next <= |r'.frames| && r.frames <= r'.frames
      && Delivered(r'.told) == r'.frames[r.next..r'.next]
  {
    hide TurnTaken;
    if |ts| > 0 {
      NoGapNoRepeat(r, ts[..|ts| - 1]);
      TurnAdds(TurnsTaken(r, ts[..|ts| - 1]), ts[|ts| - 1], r.next);
      FramesStay(r.frames, TurnsTaken(r, ts[..|ts| - 1]).frames, TurnsTaken(r, ts).frames);
    }
  }

  lemma FramesStay(a: seq<Published>, b: seq<Published>, c: seq<Published>)
    requires a <= b <= c
    ensures a <= c
  {
  }

  lemma TurnAdds(r: Reading, t: Turn, start: nat)
    requires start <= r.next <= |r.frames| && Delivered(r.told) == r.frames[start..r.next]
    ensures
      var r' := TurnTaken(r, t);
      && r.next <= r'.next <= |r'.frames| && r.frames <= r'.frames
      && Delivered(r'.told) == r'.frames[start..r'.next]
  {
    var r' := TurnTaken(r, t);
    if |r'.told| > |r.told| {
      assert r'.told[..|r'.told| - 1] == r.told;
    }
    assert r'.frames[start..r.next] == r.frames[start..r.next];
  }

  /** A cursor ends exactly when it is cancelled, or stopped with nothing left; once
      cancelled it is told nothing more; a stop lets it drain first. */
  lemma {:induction false} CancelledIsFinal(r: Reading, ts: seq<Turn>)
    requires r.cancelled
    ensures TurnsTaken(r, ts).cancelled && TurnsTaken(r, ts).next == r.next
    ensures Delivered(TurnsTaken(r, ts).told) == Delivered(r.told)
  {
    if |ts| > 0 {
      var mid := TurnsTaken(r, ts[..|ts| - 1]);
      CancelledIsFinal(r, ts[..|ts| - 1]);
      var r' := TurnsTaken(r, ts);
      if |r'.told| > |mid.told| {
        assert r'.told[..|r'.told| - 1] == mid.told;
      }
    }
  }

  /** A stopped journal is drained before the cursor ends: `n` more polls deliver every
      frame left, then it is finished. */
  lemma {:induction false} StopDrains(r: Reading, n: nat)
    requires r.stopped && !r.cancelled && r.next <= |r.frames| && n == |r.frames| - r.next
    ensures
      var r' := TurnsTaken(r, seq(n, i => Polls));
      && r'.next == |r.frames| && r'.frames == r.frames && r'.stopped && !r'.cancelled && PollOf(r').Finished?
  {
    PollsDrain(r, n);
  }

  lemma {:induction false} PollsDrain(r: Reading, k: nat)
    requires r.stopped && !r.cancelled && r.next + k <= |r.frames|
    ensures
      var r' := TurnsTaken(r, seq(k, i => Polls));
      r'.next == r.next + k && r'.frames == r.frames && r'.stopped && !r'.cancelled
  {
    if k > 0 {
      PollsDrain(r, k - 1);
      assert seq(k, i => Polls)[..k - 1] == seq(k - 1, i => Polls);
    }
  }
}

/** Following a flock from outside, and reading its log beside a live server. */
module FollowModel {
  import opened Results
  import opened Schema
  import opened StateModel
  import opened FlockLaws
  import opened FrameLaws
  import opened FlockTheorems
  import opened Codec
  import opened LogModel
  import opened ServerModel
  import opened ServerRuns
  import opened CrashLaws
  import opened JournalModel

  datatype FollowError =
    | DoesNotExtend
    | Invalid(why: StateError)

  /** The follower's verdict on a frame and, when it is taken, the state after all of it. */
  function Followed(st: FlockState, f: Frame): Result<FlockState, FollowError> {
    if |f| == 0 then Err(Invalid(EmptyFrame))
    else if f[0].record.parents != {st.chain.prev} || f[0].record.payload.index != st.chain.nextIndex then Err(DoesNotExtend)
    else if !FrameShape(f) then Err(Invalid(ShrinkWithoutBump))
    else
      match ReplayedFrame(st, f)
      case Err(e) => Err(Invalid(e))
      case Ok(st') => Ok(st')
  }

  class Follower {
    var st: State
    var head: Option<Head>

    ghost predicate Valid()
      reads this
    {
      st.Valid() && this !in st.Repr
    }

    /** Start at genesis. */
    constructor (start: FlockState)
      ensures Valid() && fresh(st) && fresh(st.Repr) && st.View() == start && head.None?
    {
      st := new State(start);
      head := None;
    }

    constructor Clone(other: Follower)
      requires other.Valid()
      ensures Valid() && fresh(st) && fresh(st.Repr) && st.View() == other.st.View() && head == other.head
    {
      var v := other.st.Snapshot();
      st := new State(v);
      head := other.head;
    }

    /** A failed frame leaves the follower as it was: it is replayed into a copy. */
    method Apply(f: Frame) returns (r: Result<(), FollowError>)
      requires Valid()
      modifies this
      ensures Valid()
      ensures r.Ok? ==> |f| > 0 && Followed(old(st.View()), f) == Ok(st.View()) && head == Some(HeadOf(f[|f| - 1]))
      ensures r.Ok? ==> fresh(st) && fresh(st.Repr)
      ensures r.Err? ==> Followed(old(st.View()), f) == Err(r.error) && st == old(st) && st.View() == old(st.View()) && head == old(head)
    {
      hide ReplayedFrame, FrameShape;
      if |f| == 0 {
        return Err(Invalid(EmptyFrame));
      }
      var v := st.Snapshot();
      if f[0].record.parents != {v.chain.prev} || f[0].record.payload.index != v.chain.nextIndex {
        return Err(DoesNotExtend);
      }
      var shape := CheckFrameShape(f);
      if !shape {
        return Err(Invalid(ShrinkWithoutBump));
      }
      var next := new State(v);
      var step := next.ReplayFrame(f);
      if step.Err? {
        return Err(Invalid(step.error));
      }
      st := next;
      head := Some(HeadOf(f[|f| - 1]));
      return Ok(());
    }
  }

  // ------------------------------------------------------------------ one verdict for every reader

  /** A follower takes exactly the frames replay takes, to the same state; telling a
      rollback apart from other damage changes no verdict. */
  lemma FollowerIsReplay(st: FlockState, f: Frame)
    ensures Followed(st, f).Ok? <==> FrameTaken(st, f).Ok?
    ensures Followed(st, f).Ok? ==> Followed(st, f).value == FrameTaken(st, f).value
    ensures FrameTaken(st, f).Ok? ==> f[0].record.parents == {st.chain.prev} && f[0].record.payload.index == st.chain.nextIndex
  {
    hide FrameShape, Vet, CitedCert, Taken, Vouches, DropsMember;
    if FrameTaken(st, f).Ok? {
      assert Replayed(st, f[0]).Ok?;
    }
  }

  function FollowedAll(g: Genesis, frames: seq<Frame>): Result<FlockState, FollowError> {
    if |frames| == 0 then
      match Start(g)
      case Ok(st) => Ok(st)
      case Err(e) => Err(Invalid(e))
    else
      var st :- FollowedAll(g, frames[..|frames| - 1]);
      Followed(st, frames[|frames| - 1])
  }

  /** A bad frame ends the following of every longer list. */
  lemma {:induction false} FollowFailureSticks(g: Genesis, frames: seq<Frame>, n: nat)
    requires n <= |frames| && FollowedAll(g, frames[..n]).Err?
    ensures FollowedAll(g, frames) == FollowedAll(g, frames[..n])
    decreases |frames| - n
  {
    hide Followed;
    if n < |frames| {
      assert frames[..n + 1][..n] == frames[..n];
      FollowFailureSticks(g, frames, n + 1);
    } else {
      assert frames[..n] == frames;
    }
  }

  lemma FollowedMore(g: Genesis, frames: seq<Frame>, f: Frame)
    requires FollowedAll(g, frames).Ok?
    ensures FollowedAll(g, frames + [f]) == Followed(FollowedAll(g, frames).value, f)
  {
    hide Followed;
    assert (frames + [f])[..|frames|] == frames;
  }

  /** Rebuild, follower and server agree on which frame lists are a flock's, and on what
      state they are. */
  lemma {:induction false} FollowersRebuild(g: Genesis, frames: seq<Frame>)
    ensures FollowedAll(g, frames).Ok? <==> Rebuilt(g, frames).Ok?
    ensures Rebuilt(g, frames).Ok? ==> FollowedAll(g, frames).value == Rebuilt(g, frames).value
  {
    hide Followed, FrameTaken;
    if |frames| > 0 {
      FollowersRebuild(g, frames[..|frames| - 1]);
      if Rebuilt(g, frames[..|frames| - 1]).Ok? {
        FollowerIsReplay(Rebuilt(g, frames[..|frames| - 1]).value, frames[|frames| - 1]);
      }
    }
  }

  // ------------------------------------------------------------------ following one server for ever

  lemma {:induction false} RebuiltNonEmpty(g: Genesis, frames: seq<Frame>)
    requires Rebuilt(g, frames).Ok?
    ensures forall i {:trigger frames[i]} :: 0 <= i < |frames| ==> |frames[i]| > 0
  {
    hide ReplayedFrom, FrameShape;
    if |frames| > 0 {
      RebuiltNonEmpty(g, frames[..|frames| - 1]);
      forall i | 0 <= i < |frames|
        ensures |frames[i]| > 0
      {
        if i < |frames| - 1 {
          assert frames[..|frames| - 1][i] == frames[i];
        }
      }
    }
  }

  /** Whatever rebuilds is contiguous. */
  lemma RebuiltContiguous(g: Genesis, frames: seq<Frame>)
    requires Rebuilt(g, frames).Ok?
    ensures Contiguous(frames)
  {
    hide Rebuilt, Played, Flat;
    RebuiltNonEmpty(g, frames);
    RebuildIsPlay(g, frames);
    EpochCountsBumps(g, Flat(frames));
  }

  /** A follower that has the first `k` frames of a journal, and the head they leave. */
  ghost predicate At(frames: seq<Frame>, k: nat, head: Option<Head>) {
    && k <= |frames|
    && (if k == 0 then head.None? else |frames[k - 1]| > 0 && head == Some(HeadOf(frames[k - 1][|frames[k - 1]| - 1])))
  }

  /** In any longer history its token resumes just where it is. */
  lemma TokenResumes(g: Genesis, frames: seq<Frame>, k: nat, head: Option<Head>)
    requires Rebuilt(g, frames).Ok? && At(frames, k, head)
    ensures ResumesAt(frames, head, From(k))
  {
    hide Rebuilt, Flat, Contiguous, LastIndex;
    RebuiltContiguous(g, frames);
    if k > 0 {
      var f := frames[k - 1];
      FrameEnds(frames, k - 1);
      assert f[|f| - 1].record.payload.index == |Flat(frames[..k])| by { LastOf(f); }
      assert EndsAt(frames, k, |Flat(frames[..k])|);
    }
  }

  lemma LastOf(f: Frame)
    requires |f| > 0
    ensures LastIndex(f) == f[|f| - 1].record.payload.index
  {
  }

  /**
   A follower fed by one server, over any number of crashes and reopenings. It got `k`
   frames from the server at some point of the run; whenever later the server is up, the
   follower's head resumes at exactly its own place (never behind, diverged or off a
   boundary) even when it holds everything published, and each frame from there on extends
   what it has, up to the server's state.
   */
  lemma FollowerIsNeverLost(cfg: Config, acts: seq<Act>, n: nat, k: nat, head: Option<Head>)
    requires ConfigOk(cfg) && PossibleRun(cfg, FRESH, NOTHING_YET, acts) && n <= |acts|
    requires Walked(cfg, FRESH, NOTHING_YET, acts[..n]).0.Up? && Walked(cfg, FRESH, NOTHING_YET, acts).0.Up?
    requires At(FramesOf(Walked(cfg, FRESH, NOTHING_YET, acts[..n]).0.sv.journal), k, head)
    ensures
      var frames := FramesOf(Walked(cfg, FRESH, NOTHING_YET, acts).0.sv.journal);
      && Contiguous(frames)
      && ResumesAt(frames, head, From(k))
      && (forall r :: ResumesAt(frames, head, r) ==> r == From(k))
      && (forall j: nat {:trigger Extends(cfg.genesis, frames, j)} :: j < |frames| ==> Extends(cfg.genesis, frames, j))
      && Rebuilt(cfg.genesis, frames) == Ok(Walked(cfg, FRESH, NOTHING_YET, acts).0.sv.st)
  {
    hide ConfigOk, Walked, PossibleRun, Rebuilt, ResumesAt, Contiguous, Followed, Kept, FrameTaken, Stepped, NextLedger;
    var (w0, l0) := Walked(cfg, FRESH, NOTHING_YET, acts[..n]);
    var (w, l) := Walked(cfg, FRESH, NOTHING_YET, acts);
    PrefixPossible(cfg, FRESH, NOTHING_YET, acts, n);
    EveryRunIsKept(cfg, acts[..n]);
    EveryRunIsKept(cfg, acts);
    ServesLedger(cfg, w0.sv, l0);
    ServesLedger(cfg, w.sv, l);
    ServesState(cfg, w.sv, l);
    NothingToldIsLost(cfg, acts, n);
    RebuiltContiguous(cfg.genesis, l.frames);
    TokenResumes(cfg.genesis, l.frames, k, head);
    forall r | ResumesAt(l.frames, head, r)
      ensures r == From(k)
    {
      ResumeIsOnePlace(l.frames, head, r, From(k));
    }
    forall j: nat | j < |l.frames|
      ensures Extends(cfg.genesis, l.frames, j)
    {
      NextFrameExtends(cfg.genesis, l.frames, j);
    }
  }

  /** A follower at frame `j` takes that frame, to the state the frames up to it rebuild to. */
  ghost predicate Extends(g: Genesis, frames: seq<Frame>, j: nat)
    requires j < |frames|
  {
    && Rebuilt(g, frames[..j]).Ok? && Rebuilt(g, frames[..j + 1]).Ok?
    && Followed(Rebuilt(g, frames[..j]).value, frames[j]) == Ok(Rebuilt(g, frames[..j + 1]).value)
  }

  lemma NextFrameExtends(g: Genesis, frames: seq<Frame>, j: nat)
    requires Rebuilt(g, frames).Ok? && j < |frames|
    ensures Extends(g, frames, j)
  {
    hide Followed, FrameTaken;
    PrefixRebuilds(g, frames, j);
    PrefixRebuilds(g, frames, j + 1);
    assert frames[..j + 1][..j] == frames[..j];
    FollowerIsReplay(Rebuilt(g, frames[..j]).value, frames[j]);
  }

  lemma {:induction false} PrefixPossible(cfg: Config, w: World, l: Ledger, acts: seq<Act>, n: nat)
    requires PossibleRun(cfg, w, l, acts) && n <= |acts|
    ensures PossibleRun(cfg, w, l, acts[..n])
  {
    hide Walked, Possible;
    if n == |acts| {
      assert acts[..n] == acts;
    } else {
      PrefixPossible(cfg, w, l, acts[..|acts| - 1], n);
      assert acts[..|acts| - 1][..n] == acts[..n];
    }
  }

  /**
   Resuming is safe against any server, not only an honest one. A follower verified `log`
   and holds its last record as head; some server's journal `frames` verifies too. If that
   head resumes there, then what lies before the cursor is exactly the follower's own past,
   event by event and record by record.
   */
  lemma ResumeMeansSamePast(g: Genesis, log: seq<Sealed>, frames: seq<Frame>, next: nat)
    requires Played(g, log).Ok? && |log| > 0 && Rebuilt(g, frames).Ok?
    requires ResumesAt(frames, Some(HeadOf(log[|log| - 1])), From(next))
    ensures next <= |frames| && |Flat(frames[..next])| == |log|
    ensures forall i: nat {:trigger SameEntry(log, Flat(frames[..next]), i)} :: SameEntry(log, Flat(frames[..next]), i)
  {
    hide Rebuilt, Played, Flat, Contiguous, LastIndex;
    var n := |log|;
    EpochCountsBumps(g, log);
    assert log[n - 1].record.payload.index == n;
    RebuiltContiguous(g, frames);
    PrefixRebuilds(g, frames, next);
    RebuildIsPlay(g, frames[..next]);
    var past := Flat(frames[..next]);
    FlatGrows(frames, next, |frames|);
    assert frames[..|frames|] == frames;
    assert past[n - 1] == Flat(frames)[n - 1];
    HeadPinsHistory(g, log, past);
  }

  // ------------------------------------------------------------------ snapshots

  datatype SnapshotError = Damaged(offset: nat) | BadFrames(e: StateError)

  datatype Snapshot = Snapshot(st: FlockState, torn: bool)

  /** Read the log without the lock and without writing. */
  function SnapshotOf(cfg: Config, visible: seq<byte>): Result<Snapshot, SnapshotError> {
    match ParsedFrom(cfg.frames, visible, 0, [])
    case Corrupt(offset) => Err(SnapshotError.Damaged(offset))
    case Parsed(frames, _, cut) =>
      match Rebuilt(cfg.genesis, Values(frames))
      case Err(e) => Err(BadFrames(e))
      case Ok(st) => Ok(Snapshot(st, cut.Some?))
  }

  /** Beside a server at any point of any life, whatever an append in flight has written, a
      snapshot reads clean: the state just before that append or just after it. */
  lemma SnapshotReadsClean(cfg: Config, acts: seq<Act>)
    requires ConfigOk(cfg) && PossibleRun(cfg, FRESH, NOTHING_YET, acts)
    ensures
      var (w, l) := Walked(cfg, FRESH, NOTHING_YET, acts);
      var s := SnapshotOf(cfg, LogOf(w).visible);
      && s.Ok?
      && (Rebuilt(cfg.genesis, l.frames) == Ok(s.value.st) || Rebuilt(cfg.genesis, l.frames + l.more) == Ok(s.value.st))
      && (l.more == [] ==> !s.value.torn)
  {
    hide Rebuilt, Walked, PossibleRun, FramesOf, Serves, Republished, AllFit, RefusalsHold, ReceiptHonoured, ParsedFrom,
         GenesisOk, Good, Recovered, Values, Placed, EncodedAll;
    EveryRunIsKept(cfg, acts);
    var (w, l) := Walked(cfg, FRESH, NOTHING_YET, acts);
    InFlightParses(cfg.frames, LogOf(w), l.frames, l.more);
    if l.more == [] {
      assert l.frames + l.more == l.frames;
      NothingTorn(cfg.frames, LogOf(w), l.frames);
    }
  }

  lemma NothingTorn<T(!new)>(c: Codec<T>, d: Disk, vs: seq<T>)
    requires Good(c) && AllFit(c, vs) && EncodedAll(c, vs) <= d.visible <= EncodedAll(c, vs)
    ensures ParsedFrom(c, d.visible, 0, []).Parsed? && ParsedFrom(c, d.visible, 0, []).cut.None?
  {
    hide EncodedAll, ParsedFrom, Good, Placed;
    assert d.visible == EncodedAll(c, vs);
    WholeFileParses(c, vs);
  }
}

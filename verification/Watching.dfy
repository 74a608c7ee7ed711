/** A stream and the reader at its other end. */
module Watching {
  import opened Results
  import opened Schema
  import opened StateModel
  import opened FlockLaws
  import opened FrameLaws
  import opened FlockTheorems
  import opened ServerModel
  import opened ServerRuns
  import opened JournalModel
  import opened FollowModel
  import opened StreamModel
  import opened FsModel
  import opened ReaderModel

  /** A message as the reader takes it. */
  function EventOf(m: StreamModel.Message): WatchEvent {
    match m
    case FrameMessage(f) => FrameEvent(f)
    case CaughtUp(index) => CaughtEvent(index)
    case CloseMessage(_) => ClosedEvent
  }

  function EventsOf(ms: seq<StreamModel.Message>): (events: seq<WatchEvent>)
    ensures |events| == |ms|
  {
    if |ms| == 0 then [] else [EventOf(ms[0])] + EventsOf(ms[1..])
  }

  /** Messages that tell a journal's frames from `k` on, in order, with markers that count the
      events so far, and nothing after a close. */
  ghost predicate Tells(frames: seq<Frame>, k: nat, ms: seq<StreamModel.Message>)
    requires k <= |frames|
    decreases |ms|
  {
    |ms| > 0 ==>
      match ms[0]
      case FrameMessage(f) => k < |frames| && f == frames[k] && Tells(frames, k + 1, ms[1..])
      case CaughtUp(index) => index == |Flat(frames[..k])| && Tells(frames, k, ms[1..])
      case CloseMessage(_) => ms[1..] == []
  }

  /** However soon the connection fails. */
  lemma {:induction false} TellsLess(frames: seq<Frame>, k: nat, ms: seq<StreamModel.Message>, n: nat)
    requires k <= |frames| && Tells(frames, k, ms) && n <= |ms|
    ensures Tells(frames, k, ms[..n])
    decreases |ms|
  {
    if n > 0 {
      assert ms[..n][1..] == ms[1..][..n - 1];
      match ms[0]
      case FrameMessage(_) => TellsLess(frames, k + 1, ms[1..], n - 1);
      case CaughtUp(_) => TellsLess(frames, k, ms[1..], n - 1);
      case CloseMessage(_) =>
    }
  }

  /** A server streams what it published, from where the cursor stands. */
  lemma {:induction false} StreamTells(
    g: Genesis, frames: seq<Frame>, k: nat, session: string, fromIndex: nat, replayEnd: nat, caught: bool)
    requires Rebuilt(g, frames).Ok? && k <= |frames| && |Republished(g, frames)| == |frames|
    ensures Tells(frames, k, Says(Republished(g, frames)[k..], session, fromIndex, replayEnd, |Flat(frames[..k])|, caught))
    decreases |frames| - k, !caught
  {
    hide Rebuilt, Republished, Over, Flat, Contiguous, LastIndex;
    var ps, at := Republished(g, frames)[k..], |Flat(frames[..k])|;
    var ms := Says(ps, session, fromIndex, replayEnd, at, caught);
    if !caught && at >= replayEnd {
      StreamTells(g, frames, k, session, fromIndex, replayEnd, true);
      assert ms[1..] == Says(ps, session, fromIndex, replayEnd, at, true);
    } else if k < |frames| {
      RepublishedAt(g, frames, k);
      RebuiltContiguous(g, frames);
      FrameEnds(frames, k);
      assert ps[0].frame == frames[k] && ps[1..] == Republished(g, frames)[k + 1..];
      StreamTells(g, frames, k + 1, session, fromIndex, replayEnd, caught);
      if Over(ps[0], session, fromIndex) {
        assert ms[1..] == [CloseMessage(true)] && ms[1..][1..] == [];
      } else {
        assert ms[1..] == Says(ps[1..], session, fromIndex, replayEnd, FarAfter(at, ps[0].frame), caught);
      }
    }
  }

  lemma FollowedPrefix(g: Genesis, frames: seq<Frame>, k: nat)
    requires Rebuilt(g, frames).Ok? && k <= |frames|
    ensures FollowedAll(g, frames[..k]).Ok? && AdmittedCount(FollowedAll(g, frames[..k]).value) == |Flat(frames[..k])|
  {
    hide Rebuilt, Played, Flat, FollowedAll;
    PrefixRebuilds(g, frames, k);
    FollowersRebuild(g, frames[..k]);
    RebuildIsPlay(g, frames[..k]);
    EpochCountsBumps(g, Flat(frames[..k]));
  }

  predicate AllComplete(fates: seq<Fate>) {
    forall i :: 0 <= i < |fates| ==> fates[i].Completes?
  }

  /** A reader told a journal's frames takes every one: all that can stop it is a save of its
      own that fails, or the stream's end. */
  lemma {:induction false} TellingIsTaken(
    g: Genesis, c: Checkpoints, frames: seq<Frame>, k: nat, l: Life, ms: seq<StreamModel.Message>, fates: seq<Fate>, once: bool)
    requires Rebuilt(g, frames).Ok? && k <= |frames| && Tells(frames, k, ms) && |fates| == |ms|
    requires l.held == Some(frames[..k]) && FollowedAll(g, frames[..k]).Ok?
    ensures
      var w := Watched(g, c, l, EventsOf(ms), fates, once);
      && (w.result.Err? ==> w.result.error in {NotSaved, StreamEnded})
      && (!once && AllComplete(fates) ==>
            && w.used == |ms| && SeenFrames(w.seen) == FramesIn(ms)
            && (w.result.Ok? <==> |ms| > 0 && ms[|ms| - 1].CloseMessage?))
    decreases |ms|
  {
    hide Rebuilt, FollowedAll, Flat, Step, Reports, ReaderModel.Stops, SeenFrames, FramesIn, EventOf;
    NoFrames();
    NothingDone(g, c, l);
    if |ms| > 0 {
      var e, l', s := EventOf(ms[0]), Step(g, c, l, EventOf(ms[0]), fates[0]), Reports(g, l, EventOf(ms[0]), fates[0]);
      OneTold(g, c, frames, k, l, ms[0], fates[0], once);
      FirstFrame(ms[0], ms[1..]);
      assert EventsOf(ms)[1..] == EventsOf(ms[1..]) && [ms[0]] + ms[1..] == ms;
      if ReaderModel.Stops(g, l, e, fates[0], once).None? {
        var k' := if ms[0].FrameMessage? then k + 1 else k;
        TellingIsTaken(g, c, frames, k', l', ms[1..], fates[1..], once);
        SeenFirst(s, Watched(g, c, l', EventsOf(ms[1..]), fates[1..], once).seen);
        assert ms[1..] != [] ==> ms[1..][|ms[1..]| - 1] == ms[|ms| - 1];
      }
    }
  }

  /** One message of such a telling. */
  lemma OneTold(
    g: Genesis, c: Checkpoints, frames: seq<Frame>, k: nat, l: Life, m: StreamModel.Message, fate: Fate, once: bool)
    requires Rebuilt(g, frames).Ok? && k <= |frames| && l.held == Some(frames[..k]) && FollowedAll(g, frames[..k]).Ok?
    requires m.FrameMessage? ==> k < |frames| && m.frame == frames[k]
    requires m.CaughtUp? ==> m.index == |Flat(frames[..k])|
    ensures
      var l', s := Step(g, c, l, EventOf(m), fate), Reports(g, l, EventOf(m), fate);
      var k' := if m.FrameMessage? then k + 1 else k;
      match ReaderModel.Stops(g, l, EventOf(m), fate, once)
      case None =>
        && !m.CloseMessage? && l'.held == Some(frames[..k']) && FollowedAll(g, frames[..k']).Ok?
        && SeenFrames(s) == if m.FrameMessage? then [m.frame] else []
      case Some(r) =>
        && (r.Err? ==> r.error in {NotSaved, StreamEnded})
        && (!once && fate.Completes? ==> m.CloseMessage? && r.Ok? && SeenFrames(s) == [])
  {
    hide Rebuilt, FollowedAll, Flat, AfterSave;
    FollowedPrefix(g, frames, k);
    if m.FrameMessage? {
      FollowedPrefix(g, frames, k + 1);
      assert frames[..k] + [frames[k]] == frames[..k + 1];
      assert SeenFrames([SeenFrame(m.frame)]) == [m.frame] by {
        assert [SeenFrame(m.frame)][1..] == [];
        assert SeenFrames([SeenFrame(m.frame)]) == [m.frame] + [];
      }
    }
  }

  /**
   A server and a reader of its journal. The reader holds the first `k` frames and follows
   the server's stream from there, for as many messages `n` as the connection carries.
   Nothing it is sent is ever wrong: no frame fails to extend or to verify, and the marker
   always agrees. If its saves succeed and the stream is carried to its close, it ends
   holding every frame the server had to send it.
   */
  lemma ReaderAgreesWithServer(
    g: Genesis, c: Checkpoints, frames: seq<Frame>, k: nat, l: Life, session: string, fromIndex: nat, replayEnd: nat,
    n: nat, fates: seq<Fate>, once: bool)
    requires Rebuilt(g, frames).Ok? && k <= |frames| && l.held == Some(frames[..k])
    ensures |Republished(g, frames)| == |frames| && FollowedAll(g, frames[..k]).Ok?
    ensures
      var ps := Republished(g, frames)[k..];
      var ms := Says(ps, session, fromIndex, replayEnd, |Flat(frames[..k])|, false);
      n == |fates| <= |ms| ==>
      var w := Watched(g, c, l, EventsOf(ms[..n]), fates, once);
      && (w.result.Err? ==> w.result.error in {NotSaved, StreamEnded})
      && (!once && AllComplete(fates) && n == |ms| ==>
            w.result.Ok? && w.life.held == Some(frames[..k] + FramesOf(Sent(ps, session, fromIndex))))
  {
    hide Rebuilt, Republished, FollowedAll, Says, Tells, Watched, Flat, Sent, FramesOf, FramesIn, SeenFrames, AllComplete;
    FollowedPrefix(g, frames, k);
    RepublishedFrames(g, frames);
    assert |FramesOf(Republished(g, frames))| == |Republished(g, frames)| by { FramesCount(Republished(g, frames)); }
    var ps := Republished(g, frames)[k..];
    var ms := Says(ps, session, fromIndex, replayEnd, |Flat(frames[..k])|, false);
    if n != |fates| || n > |ms| {
      return;
    }
    StreamTells(g, frames, k, session, fromIndex, replayEnd, false);
    TellsLess(frames, k, ms, n);
    TellingIsTaken(g, c, frames, k, l, ms[..n], fates, once);
    WatchedIsLived(g, c, l, EventsOf(ms[..n]), fates, once);
    SaysWhatIsSent(ps, session, fromIndex, replayEnd, |Flat(frames[..k])|, false);
    assert n == |ms| ==> ms[..n] == ms;
  }

  lemma FramesCount(ps: seq<Published>)
    ensures |FramesOf(ps)| == |ps|
  {
  }
}

/** A directory with one saved file: write, sync, rename, sync, and what power loss may leave
    after each. */
module FsModel {
  import opened Results
  import opened Codec

  /** A file's bytes, and whether they are durable. */
  datatype Inode = Inode(bytes: seq<byte>, synced: bool)

  /** The saved file's name and the temporary beside it. `names` is what the name has stood
      for since the directory was last made durable; the last is what a reader sees. */
  datatype Dir = Dir(names: seq<Option<Inode>>, tmp: Option<Inode>)

  const EMPTY_DIR := Dir([None], None)

  function Visible(d: Dir): Option<Inode> {
    if |d.names| == 0 then None else d.names[|d.names| - 1]
  }

  /** Which step of a save fails, and what a failed write leaves behind. */
  datatype Fate = WriteDies(left: Option<seq<byte>>) | SyncDies | RenameDies | DirSyncDies | Completes

  /** The directory after a save that fails where `fate` says. */
  function AfterSave(d: Dir, bytes: seq<byte>, fate: Fate): Dir {
    match fate
    case WriteDies(left) => d.(tmp := if left.Some? then Some(Inode(left.value, false)) else None)
    case SyncDies => d.(tmp := Some(Inode(bytes, false)))
    case RenameDies => d.(tmp := Some(Inode(bytes, true)))
    case DirSyncDies => Dir(d.names + [Some(Inode(bytes, true))], None)
    case Completes => Dir([Some(Inode(bytes, true))], None)
  }

  /** Power loss leaves the name on any of the files it has stood for since the directory was
      durable; a file never synced may hold anything. */
  ghost predicate MayFind(d: Dir, found: Option<seq<byte>>) {
    exists i :: 0 <= i < |d.names| && Survivor(d.names[i], found)
  }

  predicate Survivor(name: Option<Inode>, found: Option<seq<byte>>) {
    match name
    case None => found.None?
    case Some(inode) => found.Some? && (inode.synced ==> found.value == inode.bytes)
  }

  function AfterLoss(found: Option<seq<byte>>): Dir {
    Dir([if found.Some? then Some(Inode(found.value, true)) else None], None)
  }

  /** A directory whose steps fail as planned. */
  class Fs {
    var names: seq<Option<Inode>>
    var tmp: Option<Inode>
    var fate: Fate

    ghost predicate Valid()
      reads this
    {
      |names| > 0
    }

    function View(): Dir
      reads this
    {
      Dir(names, tmp)
    }

    constructor ()
      ensures Valid() && View() == EMPTY_DIR && fate == Completes
    {
      names, tmp, fate := [None], None, Completes;
    }

    method Write(bytes: seq<byte>) returns (ok: bool)
      modifies this`tmp
      ensures ok <==> !fate.WriteDies?
      ensures ok ==> tmp == Some(Inode(bytes, false))
      ensures !ok ==> tmp == if fate.left.Some? then Some(Inode(fate.left.value, false)) else None
    {
      if fate.WriteDies? {
        tmp := if fate.left.Some? then Some(Inode(fate.left.value, false)) else None;
        return false;
      }
      tmp := Some(Inode(bytes, false));
      return true;
    }

    method SyncTmp() returns (ok: bool)
      requires tmp.Some?
      modifies this`tmp
      ensures ok <==> !fate.SyncDies?
      ensures tmp == if ok then Some(Inode(old(tmp).value.bytes, true)) else old(tmp)
    {
      if fate.SyncDies? {
        return false;
      }
      tmp := Some(tmp.value.(synced := true));
      return true;
    }

    method Rename() returns (ok: bool)
      requires tmp.Some?
      modifies this`names, this`tmp
      ensures ok <==> !fate.RenameDies?
      ensures ok ==> names == old(names) + [old(tmp)] && tmp.None?
      ensures !ok ==> names == old(names) && tmp == old(tmp)
    {
      if fate.RenameDies? {
        return false;
      }
      names, tmp := names + [tmp], None;
      return true;
    }

    method SyncDir() returns (ok: bool)
      requires Valid()
      modifies this`names
      ensures Valid() && (ok <==> !fate.DirSyncDies?)
      ensures names == if ok then [old(names)[|old(names)| - 1]] else old(names)
    {
      if fate.DirSyncDies? {
        return false;
      }
      names := [names[|names| - 1]];
      return true;
    }

    /** Make the file the name stands for durable. */
    method SyncVisible() returns (ok: bool)
      requires Valid() && names[|names| - 1].Some?
      modifies this`names
      ensures Valid() && (ok <==> !fate.SyncDies?)
      ensures
        var last := |old(names)| - 1;
        names == if ok then old(names)[last := Some(Inode(old(names)[last].value.bytes, true))] else old(names)
    {
      if fate.SyncDies? {
        return false;
      }
      names := names[|names| - 1 := Some(names[|names| - 1].value.(synced := true))];
      return true;
    }

    method Remove()
      modifies this`tmp
      ensures tmp.None?
    {
      tmp := None;
    }
  }

  /** Replace the saved file: write a temporary, sync it, rename it over, sync the directory. */
  method SaveAtomic(fs: Fs, bytes: seq<byte>) returns (ok: bool)
    requires fs.Valid()
    modifies fs`names, fs`tmp
    ensures fs.Valid() && fs.View() == AfterSave(old(fs.View()), bytes, fs.fate)
    ensures ok <==> fs.fate.Completes?
  {
    var wrote := fs.Write(bytes);
    if !wrote {
      return false;
    }
    var synced := fs.SyncTmp();
    if !synced {
      return false;
    }
    var renamed := fs.Rename();
    if !renamed {
      return false;
    }
    ok := fs.SyncDir();
  }
}

/** The reader over its whole life: what it holds, what it has shown, what its file holds. */
module ReaderModel {
  import opened Results
  import opened Schema
  import opened StateModel
  import opened FlockLaws
  import opened ServerModel
  import opened FollowModel
  import opened Codec
  import opened FsModel

  /** What a saved file is made with: the whole list of verified frames, canonically encoded. */
  type Checkpoints = Codec<seq<Frame>>

  datatype ReaderError =
    | NotSaved
    | BadCheckpoint
    | Rollback
    | BadFrame(why: StateError)
    | WrongMarker
    | StreamEnded

  function FollowFault(e: FollowError): ReaderError {
    match e
    case DoesNotExtend => Rollback
    case Invalid(why) => BadFrame(why)
  }

  // ------------------------------------------------------------------ the reader as a value

  /** The frames a file holds, once verified from genesis; none when there is no file. */
  function Loaded(g: Genesis, c: Checkpoints, file: Option<Inode>): Result<seq<Frame>, ReaderError> {
    if file.None? then
      (match FollowedAll(g, [])
       case Ok(_) => Ok([])
       case Err(e) => Err(FollowFault(e)))
    else
      match c.dec(file.value.bytes)
      case None => Err(BadCheckpoint)
      case Some(frames) =>
        match FollowedAll(g, frames)
        case Ok(_) => Ok(frames)
        case Err(e) => Err(FollowFault(e))
  }

  /** Opening first makes what is visible durable, as far as `fate` lets it. */
  function OpenedDir(d: Dir, fate: Fate): Dir {
    var clean := d.(tmp := None);
    if Visible(d).None? || fate.SyncDies? then clean
    else
      var durable := Some(Inode(Visible(d).value.bytes, true));
      if fate.DirSyncDies? then clean.(names := d.names[..|d.names| - 1] + [durable])
      else Dir([durable], None)
  }

  function OpenedReader(g: Genesis, c: Checkpoints, d: Dir, fate: Fate): Result<seq<Frame>, ReaderError> {
    if Visible(d).Some? && (fate.SyncDies? || fate.DirSyncDies?) then Err(NotSaved)
    else Loaded(g, c, Visible(d))
  }

  // ------------------------------------------------------------------ lives of a reader

  /** A directory, the frames an open reader holds, and the longest prefix ever shown as
      saved. */
  datatype Life = Life(dir: Dir, held: Option<seq<Frame>>, witnessed: seq<Frame>)

  datatype Deed =
    | Opening(openFate: Fate)
    | ApplyOnly(frame: Frame)
    | SaveOnly(saveFate: Fate)
    | ApplySave(next: Frame, fate: Fate)
    | Dying
    | LosingPower(found: Option<seq<byte>>)

  ghost predicate CanHappen(l: Life, deed: Deed) {
    deed.LosingPower? ==> MayFind(l.dir, deed.found)
  }

  function Lived(g: Genesis, c: Checkpoints, l: Life, deed: Deed): Life {
    match deed
    case Opening(fate) =>
      if l.held.Some? then l
      else
        (match OpenedReader(g, c, l.dir, fate)
         case Ok(frames) => Life(OpenedDir(l.dir, fate), Some(frames), frames)
         case Err(_) => l.(dir := OpenedDir(l.dir, fate)))
    case ApplyOnly(f) =>
      if l.held.Some? && FollowedAll(g, l.held.value + [f]).Ok? then l.(held := Some(l.held.value + [f])) else l
    case SaveOnly(fate) =>
      if l.held.None? then l
      else
        l.(dir := AfterSave(l.dir, c.enc(l.held.value), fate),
           witnessed := if fate.Completes? then l.held.value else l.witnessed)
    case ApplySave(f, fate) =>
      if l.held.None? || FollowedAll(g, l.held.value + [f]).Err? then l
      else
        var more := l.held.value + [f];
        Life(AfterSave(l.dir, c.enc(more), fate),
             if fate.Completes? then Some(more) else l.held,
             if fate.Completes? then more else l.witnessed)
    case Dying => l.(held := None)
    case LosingPower(found) => Life(AfterLoss(found), None, l.witnessed)
  }

  /** A file that verifies and extends what was witnessed. */
  ghost predicate Extending(g: Genesis, c: Checkpoints, name: Option<Inode>, witnessed: seq<Frame>) {
    match name
    case None => witnessed == []
    case Some(inode) =>
      && inode.synced && c.dec(inode.bytes).Some?
      && witnessed <= c.dec(inode.bytes).value
      && FollowedAll(g, c.dec(inode.bytes).value).Ok?
  }

  /** Whatever the name may be found to stand for extends everything witnessed; and so does
      what the reader holds, which verifies. */
  ghost predicate Safe(g: Genesis, c: Checkpoints, l: Life) {
    && |l.dir.names| > 0
    && (forall i {:trigger l.dir.names[i]} :: 0 <= i < |l.dir.names| ==> Extending(g, c, l.dir.names[i], l.witnessed))
    && (l.held.Some? ==> l.witnessed <= l.held.value && FollowedAll(g, l.held.value).Ok?)
  }

  /** Saving frames that verify and extend what was witnessed is safe, however it ends. */
  lemma SaveIsSafe(g: Genesis, c: Checkpoints, d: Dir, witnessed: seq<Frame>, frames: seq<Frame>, fate: Fate)
    requires Good(c) && |d.names| > 0 && witnessed <= frames && FollowedAll(g, frames).Ok?
    requires forall i {:trigger d.names[i]} :: 0 <= i < |d.names| ==> Extending(g, c, d.names[i], witnessed)
    ensures
      var d' := AfterSave(d, c.enc(frames), fate);
      && |d'.names| > 0
      && (forall i {:trigger d'.names[i]} :: 0 <= i < |d'.names| ==> Extending(g, c, d'.names[i], witnessed))
      && (fate.Completes? ==> forall i {:trigger d'.names[i]} :: 0 <= i < |d'.names| ==> Extending(g, c, d'.names[i], frames))
  {
    hide FollowedAll;
    assert c.dec(c.enc(frames)) == Some(frames);
    assert Extending(g, c, Some(Inode(c.enc(frames), true)), witnessed);
    assert Extending(g, c, Some(Inode(c.enc(frames), true)), frames);
  }

  lemma OpeningIsSafe(g: Genesis, c: Checkpoints, l: Life, fate: Fate)
    requires Safe(g, c, l) && l.held.None?
    ensures Safe(g, c, Lived(g, c, l, Opening(fate)))
    ensures l.witnessed <= Lived(g, c, l, Opening(fate)).witnessed
  {
    hide FollowedAll;
    var last := |l.dir.names| - 1;
    var name := l.dir.names[last];
    assert Extending(g, c, name, l.witnessed);
    if name.Some? {
      var durable := Some(Inode(name.value.bytes, true));
      assert durable == name;
      assert l.dir.names[..last] + [durable] == l.dir.names;
    }
  }

  lemma DeedIsSafe(g: Genesis, c: Checkpoints, l: Life, deed: Deed)
    requires Good(c) && Safe(g, c, l) && CanHappen(l, deed)
    ensures Safe(g, c, Lived(g, c, l, deed))
    ensures l.witnessed <= Lived(g, c, l, deed).witnessed
  {
    hide FollowedAll, Good, Extending, AfterSave, Loaded;
    match deed {
      case Opening(fate) =>
        if l.held.None? {
          OpeningIsSafe(g, c, l, fate);
        }
      case SaveOnly(fate) =>
        if l.held.Some? {
          SaveIsSafe(g, c, l.dir, l.witnessed, l.held.value, fate);
        }
      case ApplySave(f, fate) =>
        if l.held.Some? && FollowedAll(g, l.held.value + [f]).Ok? {
          SaveIsSafe(g, c, l.dir, l.witnessed, l.held.value + [f], fate);
        }
      case LosingPower(found) =>
        LossIsSafe(g, c, l, found);
      case ApplyOnly(_) =>
      case Dying =>
    }
  }

  lemma LossIsSafe(g: Genesis, c: Checkpoints, l: Life, found: Option<seq<byte>>)
    requires Safe(g, c, l) && MayFind(l.dir, found)
    ensures Safe(g, c, Life(AfterLoss(found), None, l.witnessed))
  {
    hide FollowedAll;
    var i :| 0 <= i < |l.dir.names| && Survivor(l.dir.names[i], found);
    assert Extending(g, c, l.dir.names[i], l.witnessed);
  }

  function AllLived(g: Genesis, c: Checkpoints, l: Life, deeds: seq<Deed>): Life {
    if |deeds| == 0 then l else Lived(g, c, AllLived(g, c, l, deeds[..|deeds| - 1]), deeds[|deeds| - 1])
  }

  ghost predicate AllCanHappen(g: Genesis, c: Checkpoints, l: Life, deeds: seq<Deed>) {
    |deeds| > 0 ==>
      && AllCanHappen(g, c, l, deeds[..|deeds| - 1])
      && CanHappen(AllLived(g, c, l, deeds[..|deeds| - 1]), deeds[|deeds| - 1])
  }

  const NEWBORN := Life(EMPTY_DIR, None, [])

  lemma {:induction false} EveryLifeIsSafe(g: Genesis, c: Checkpoints, deeds: seq<Deed>)
    requires Good(c) && AllCanHappen(g, c, NEWBORN, deeds)
    ensures Safe(g, c, AllLived(g, c, NEWBORN, deeds))
  {
    hide Safe, Lived, Good, CanHappen;
    if |deeds| == 0 {
      NewbornIsSafe(g, c);
    } else {
      EveryLifeIsSafe(g, c, deeds[..|deeds| - 1]);
      DeedIsSafe(g, c, AllLived(g, c, NEWBORN, deeds[..|deeds| - 1]), deeds[|deeds| - 1]);
    }
  }

  lemma NewbornIsSafe(g: Genesis, c: Checkpoints)
    ensures Safe(g, c, NEWBORN)
  {
  }

  lemma {:induction false} NothingIsUnseen(g: Genesis, c: Checkpoints, deeds: seq<Deed>, n: nat)
    requires Good(c) && AllCanHappen(g, c, NEWBORN, deeds) && n <= |deeds|
    ensures AllLived(g, c, NEWBORN, deeds[..n]).witnessed <= AllLived(g, c, NEWBORN, deeds).witnessed
  {
    hide Safe, Lived, Good, CanHappen;
    if n == |deeds| {
      assert deeds[..n] == deeds;
    } else {
      var init := deeds[..|deeds| - 1];
      assert init[..n] == deeds[..n];
      NothingIsUnseen(g, c, init, n);
      EveryLifeIsSafe(g, c, init);
      DeedIsSafe(g, c, AllLived(g, c, NEWBORN, init), deeds[|deeds| - 1]);
    }
  }

  // ------------------------------------------------------------------ following a stream

  datatype WatchEvent = FrameEvent(frame: Frame) | CaughtEvent(index: nat) | ClosedEvent

  datatype Seen = SeenFrame(frame: Frame) | SeenCaught(index: nat)

  function SeenFrames(seen: seq<Seen>): seq<Frame> {
    if |seen| == 0 then []
    else (if seen[0].SeenFrame? then [seen[0].frame] else []) + SeenFrames(seen[1..])
  }

  /** What following a stream comes to: what it reported, how many events it used, how it
      ended, and the reader's life then. */
  datatype Watch = Watch(seen: seq<Seen>, used: nat, result: Result<(), ReaderError>, life: Life)

  function Then(seen: seq<Seen>, used: nat, w: Watch): Watch {
    w.(seen := seen + w.seen, used := used + w.used)
  }

  /** One event: a frame is applied and saved as one step. */
  function Step(g: Genesis, c: Checkpoints, l: Life, e: WatchEvent, fate: Fate): Life {
    if e.FrameEvent? then Lived(g, c, l, ApplySave(e.frame, fate)) else l
  }

  /** A frame is reported once it is saved; a marker when it agrees with what is verified. */
  function Reports(g: Genesis, l: Life, e: WatchEvent, fate: Fate): (s: seq<Seen>)
    requires l.held.Some? && FollowedAll(g, l.held.value).Ok?
    ensures |s| <= 1
  {
    match e
    case FrameEvent(f) => if fate.Completes? && FollowedAll(g, l.held.value + [f]).Ok? then [SeenFrame(f)] else []
    case CaughtEvent(index) => if index == AdmittedCount(FollowedAll(g, l.held.value).value) then [SeenCaught(index)] else []
    case ClosedEvent => []
  }

  /** How following ends at an event, if it does: at the first failure, at the close, and
      with `once` at the marker. */
  function Stops(g: Genesis, l: Life, e: WatchEvent, fate: Fate, once: bool): Option<Result<(), ReaderError>>
    requires l.held.Some? && FollowedAll(g, l.held.value).Ok?
  {
    match e
    case FrameEvent(f) =>
      (match FollowedAll(g, l.held.value + [f])
       case Err(e) => Some(Err(FollowFault(e)))
       case Ok(_) => if fate.Completes? then None else Some(Err(NotSaved)))
    case CaughtEvent(index) =>
      if index != AdmittedCount(FollowedAll(g, l.held.value).value) then Some(Err(WrongMarker))
      else if once then Some(Ok(())) else None
    case ClosedEvent => Some(if once then Err(StreamEnded) else Ok(()))
  }

  lemma OneEvent(g: Genesis, c: Checkpoints, l: Life, e: WatchEvent, fate: Fate)
    requires l.held.Some? && FollowedAll(g, l.held.value).Ok?
    ensures
      var l', s := Step(g, c, l, e, fate), Reports(g, l, e, fate);
      && l'.held == Some(l.held.value + SeenFrames(s)) && FollowedAll(g, l'.held.value).Ok?
      && l'.witnessed == (if SeenFrames(s) == [] then l.witnessed else l'.held.value)
      && (s != [] && s[0].SeenCaught? ==> s[0].index == AdmittedCount(FollowedAll(g, l'.held.value).value))
  {
    hide FollowedAll, AfterSave;
    assert l.held.value + [] == l.held.value;
    var s := Reports(g, l, e, fate);
    if s != [] {
      assert s[1..] == [];
      assert SeenFrames(s) == if s[0].SeenFrame? then [s[0].frame] else [];
    }
  }

  /** Take event after event until one of them ends it. */
  function Watched(g: Genesis, c: Checkpoints, l: Life, events: seq<WatchEvent>, fates: seq<Fate>, once: bool): (w: Watch)
    requires |events| == |fates| && l.held.Some? && FollowedAll(g, l.held.value).Ok?
    ensures w.used <= |events| && |w.seen| <= w.used
    decreases |events|
  {
    if |events| == 0 then Watch([], 0, Err(StreamEnded), l)
    else
      OneEvent(g, c, l, events[0], fates[0]);
      var l', s := Step(g, c, l, events[0], fates[0]), Reports(g, l, events[0], fates[0]);
      match Stops(g, l, events[0], fates[0], once)
      case Some(r) => Watch(s, 1, r, l')
      case None => Then(s, 1, Watched(g, c, l', events[1..], fates[1..], once))
  }

  /** What a reader does to its directory over these events. */
  function DeedsOf(events: seq<WatchEvent>, fates: seq<Fate>): seq<Deed>
    requires |events| == |fates|
  {
    if |events| == 0 then []
    else (if events[0].FrameEvent? then [ApplySave(events[0].frame, fates[0])] else []) + DeedsOf(events[1..], fates[1..])
  }

  lemma {:induction false} LivedOn(g: Genesis, c: Checkpoints, l: Life, deeds: seq<Deed>, more: seq<Deed>)
    ensures AllLived(g, c, l, deeds + more) == AllLived(g, c, AllLived(g, c, l, deeds), more)
  {
    hide Lived;
    if |more| == 0 {
      assert deeds + more == deeds;
    } else {
      var init := more[..|more| - 1];
      assert (deeds + more)[..|deeds + more| - 1] == deeds + init;
      LivedOn(g, c, l, deeds, init);
    }
  }

  lemma FirstDeed(g: Genesis, c: Checkpoints, l: Life, deed: Deed, more: seq<Deed>)
    ensures AllLived(g, c, l, [deed] + more) == AllLived(g, c, Lived(g, c, l, deed), more)
  {
    hide Lived;
    LivedOn(g, c, l, [deed], more);
    assert [deed][..0] == [];
    assert AllLived(g, c, l, [deed]) == Lived(g, c, l, deed);
  }

  /**
   A reader holds what it held and what it reported, and its directory is the one those
   saves leave: nothing is done to it but applying and saving the frames of the events used,
   each once and in order. As soon as one frame is reported, everything held is witnessed.
   */
  lemma {:induction false} WatchedIsLived(
    g: Genesis, c: Checkpoints, l: Life, events: seq<WatchEvent>, fates: seq<Fate>, once: bool)
    requires |events| == |fates| && l.held.Some? && FollowedAll(g, l.held.value).Ok?
    ensures
      var w := Watched(g, c, l, events, fates, once);
      && w.life == AllLived(g, c, l, DeedsOf(events[..w.used], fates[..w.used]))
      && w.life.held == Some(l.held.value + SeenFrames(w.seen))
      && w.life.witnessed == (if SeenFrames(w.seen) == [] then l.witnessed else w.life.held.value)
    decreases |events|
  {
    hide FollowedAll, AllLived, Step, Reports, Stops, DeedsOf, SeenFrames;
    var w := Watched(g, c, l, events, fates, once);
    NothingDone(g, c, l);
    if |events| > 0 {
      OneEvent(g, c, l, events[0], fates[0]);
      var l', s := Step(g, c, l, events[0], fates[0]), Reports(g, l, events[0], fates[0]);
      DeedsFirst(g, c, l, events[..w.used], fates[..w.used]);
      NothingDone(g, c, l');
      if Stops(g, l, events[0], fates[0], once).None? {
        var rest := Watched(g, c, l', events[1..], fates[1..], once);
        assert events[..w.used][1..] == events[1..][..rest.used] && fates[..w.used][1..] == fates[1..][..rest.used];
        WatchedIsLived(g, c, l', events[1..], fates[1..], once);
        SeenFirst(s, rest.seen);
        assert l.held.value + (SeenFrames(s) + SeenFrames(rest.seen)) == l'.held.value + SeenFrames(rest.seen);
      } else {
        assert events[..w.used][1..] == [] && fates[..w.used][1..] == [];
      }
    }
  }

  /** What was reported for an event: itself, and a frame only if its save completed. */
  predicate ReportOf(s: Seen, e: WatchEvent, fate: Fate) {
    match s
    case SeenFrame(f) => e == FrameEvent(f) && fate.Completes?
    case SeenCaught(index) => e == CaughtEvent(index)
  }

  /** Reports are of the events in order, none skipped: each event used is reported, except
      perhaps the last, where following ended; and it ends well only at a close or, with
      `once`, at a marker that was reported. */
  lemma {:induction false} NothingIsSkipped(
    g: Genesis, c: Checkpoints, l: Life, events: seq<WatchEvent>, fates: seq<Fate>, once: bool)
    requires |events| == |fates| && l.held.Some? && FollowedAll(g, l.held.value).Ok?
    ensures
      var w := Watched(g, c, l, events, fates, once);
      && w.used <= |w.seen| + 1
      && (forall i {:trigger w.seen[i]} :: 0 <= i < |w.seen| ==> ReportOf(w.seen[i], events[i], fates[i]))
      && (w.result.Ok? ==>
            && w.used > 0
            && if once then |w.seen| == w.used && w.seen[w.used - 1].SeenCaught? else events[w.used - 1].ClosedEvent?)
      && (w.result == Err(StreamEnded) ==> w.used == |events| || (once && events[w.used - 1].ClosedEvent?))
    decreases |events|
  {
    hide FollowedAll, Step, Reports, Stops, ReportOf, SeenFrames;
    if |events| > 0 {
      OneEvent(g, c, l, events[0], fates[0]);
      OneReport(g, l, events[0], fates[0], once);
      var l', s := Step(g, c, l, events[0], fates[0]), Reports(g, l, events[0], fates[0]);
      if Stops(g, l, events[0], fates[0], once).None? {
        var w, rest := Watched(g, c, l, events, fates, once), Watched(g, c, l', events[1..], fates[1..], once);
        NothingIsSkipped(g, c, l', events[1..], fates[1..], once);
        assert |s| == 1 && w.seen == s + rest.seen;
        forall i | 0 <= i < |w.seen|
          ensures ReportOf(w.seen[i], events[i], fates[i])
        {
          if i > 0 {
            assert w.seen[i] == rest.seen[i - 1] && events[1..][i - 1] == events[i] && fates[1..][i - 1] == fates[i];
          }
        }
      }
    }
  }

  lemma OneReport(g: Genesis, l: Life, e: WatchEvent, fate: Fate, once: bool)
    requires l.held.Some? && FollowedAll(g, l.held.value).Ok?
    ensures
      var s := Reports(g, l, e, fate);
      && (s != [] ==> ReportOf(s[0], e, fate))
      && match Stops(g, l, e, fate, once)
         case None => s != []
         case Some(Ok(_)) => if once then s != [] && s[0].SeenCaught? else e.ClosedEvent?
         case Some(Err(error)) => error == StreamEnded ==> once && e.ClosedEvent?
  {
    hide FollowedAll;
  }

  lemma DeedsFirst(g: Genesis, c: Checkpoints, l: Life, events: seq<WatchEvent>, fates: seq<Fate>)
    requires |events| == |fates|
    ensures events == [] ==> DeedsOf(events, fates) == []
    ensures events != [] ==>
              AllLived(g, c, l, DeedsOf(events, fates))
              == AllLived(g, c, Step(g, c, l, events[0], fates[0]), DeedsOf(events[1..], fates[1..]))
  {
    hide Lived, AllLived;
    if events != [] {
      if events[0].FrameEvent? {
        FirstDeed(g, c, l, ApplySave(events[0].frame, fates[0]), DeedsOf(events[1..], fates[1..]));
      } else {
        assert DeedsOf(events, fates) == DeedsOf(events[1..], fates[1..]);
      }
    }
  }

  lemma NothingDone(g: Genesis, c: Checkpoints, l: Life)
    ensures AllLived(g, c, l, []) == l && DeedsOf([], []) == [] && SeenFrames([]) == []
    ensures l.held.Some? ==> l.held.value + [] == l.held.value
  {
  }

  lemma SeenFirst(s: seq<Seen>, rest: seq<Seen>)
    requires |s| <= 1
    ensures SeenFrames(s + rest) == SeenFrames(s) + SeenFrames(rest)
  {
    if s == [] {
      assert s + rest == rest;
    } else {
      assert (s + rest)[1..] == rest && s[1..] == [];
    }
  }

  lemma {:induction false} SeenPrefix(seen: seq<Seen>, i: nat)
    requires i <= |seen|
    ensures SeenFrames(seen[..i]) <= SeenFrames(seen)
  {
    if i > 0 {
      assert seen[..i][1..] == seen[1..][..i - 1];
      SeenPrefix(seen[1..], i - 1);
    }
  }

  /** What is held at report `i`: the frames held at the start, and those reported since. */
  function HeldAt(l: Life, seen: seq<Seen>, i: nat): seq<Frame>
    requires l.held.Some? && i < |seen|
  {
    l.held.value + SeenFrames(seen[..i + 1])
  }

  /** A reported marker is how many events the frames held when it was reported make. */
  lemma {:induction false} MarkersAgree(
    g: Genesis, c: Checkpoints, l: Life, events: seq<WatchEvent>, fates: seq<Fate>, once: bool, i: nat)
    requires |events| == |fates| && l.held.Some? && FollowedAll(g, l.held.value).Ok?
    requires i < |Watched(g, c, l, events, fates, once).seen|
    ensures
      var seen := Watched(g, c, l, events, fates, once).seen;
      var then_ := FollowedAll(g, HeldAt(l, seen, i));
      then_.Ok? && (seen[i].SeenCaught? ==> seen[i].index == AdmittedCount(then_.value))
    decreases |events|
  {
    hide FollowedAll, Step, Reports, Stops, SeenFrames;
    var seen := Watched(g, c, l, events, fates, once).seen;
    assert HeldAt(l, seen, i) == l.held.value + SeenFrames(seen[..i + 1]);
    OneEvent(g, c, l, events[0], fates[0]);
    var l', s := Step(g, c, l, events[0], fates[0]), Reports(g, l, events[0], fates[0]);
    if i < |s| {
      assert seen[..i + 1] == s;
    } else {
      var rest := Watched(g, c, l', events[1..], fates[1..], once).seen;
      MarkersAgree(g, c, l', events[1..], fates[1..], once, i - |s|);
      assert seen[..i + 1] == s + rest[..i - |s| + 1];
      HeldOn(l, l', s, rest, seen, i);
    }
  }

  lemma HeldOn(l: Life, l': Life, s: seq<Seen>, rest: seq<Seen>, seen: seq<Seen>, i: nat)
    requires l.held.Some? && l'.held == Some(l.held.value + SeenFrames(s)) && |s| <= 1
    requires |s| <= i < |seen| && i - |s| < |rest| && seen[..i + 1] == s + rest[..i - |s| + 1]
    ensures HeldAt(l, seen, i) == HeldAt(l', rest, i - |s|)
  {
    hide SeenFrames;
    SeenFirst(s, rest[..i - |s| + 1]);
  }

  /**
   A reported head never rolls back. A reader with any past follows a stream, and then
   anything may happen to it: failed saves, deaths, power losses, other streams. Whenever it
   is next closed, opening it (once its own two syncs succeed) shows at least what was held
   at each report of a frame, and at each report of a marker too if a frame was reported
   before it or everything held at the start had been saved.
   */
  lemma HeadNeverRollsBack(
    g: Genesis, c: Checkpoints, before: seq<Deed>, events: seq<WatchEvent>, fates: seq<Fate>, once: bool,
    after: seq<Deed>, i: nat)
    requires GenesisOk(g) && Good(c) && |events| == |fates|
    requires
      var l := AllLived(g, c, NEWBORN, before);
      && l.held.Some? && FollowedAll(g, l.held.value).Ok?
      && var w := Watched(g, c, l, events, fates, once);
      && i < |w.seen| && (l.held.value == l.witnessed || SeenFrames(w.seen[..i + 1]) != [])
      && var deeds := before + DeedsOf(events[..w.used], fates[..w.used]) + after;
      && AllCanHappen(g, c, NEWBORN, deeds) && AllLived(g, c, NEWBORN, deeds).held.None?
    ensures
      var l := AllLived(g, c, NEWBORN, before);
      var w := Watched(g, c, l, events, fates, once);
      var end := AllLived(g, c, NEWBORN, before + DeedsOf(events[..w.used], fates[..w.used]) + after);
      var found := OpenedReader(g, c, end.dir, Completes);
      && found.Ok? && HeldAt(l, w.seen, i) <= found.value && Rebuilt(g, found.value).Ok?
  {
    hide AllLived, FollowedAll, Good, GenesisOk, Rebuilt, AllCanHappen, Watched, DeedsOf, OpenedReader, SeenFrames;
    var l := AllLived(g, c, NEWBORN, before);
    var w := Watched(g, c, l, events, fates, once);
    var mid := before + DeedsOf(events[..w.used], fates[..w.used]);
    WatchedIsLived(g, c, l, events, fates, once);
    LivedOn(g, c, NEWBORN, before, DeedsOf(events[..w.used], fates[..w.used]));
    SeenPrefix(w.seen, i + 1);
    assert HeldAt(l, w.seen, i) <= w.life.held.value;
    SeenEmpty(l, w, i);
    assert (mid + after)[..|mid|] == mid;
    WitnessedIsKept(g, c, mid + after, |mid|);
  }

  lemma SeenEmpty(l: Life, w: Watch, i: nat)
    requires l.held.Some? && i < |w.seen| && w.life.held == Some(l.held.value + SeenFrames(w.seen))
    requires w.life.witnessed == (if SeenFrames(w.seen) == [] then l.witnessed else w.life.held.value)
    requires l.held.value == l.witnessed || SeenFrames(w.seen[..i + 1]) != []
    requires SeenFrames(w.seen[..i + 1]) <= SeenFrames(w.seen)
    ensures HeldAt(l, w.seen, i) <= w.life.witnessed
  {
    hide SeenFrames;
  }

  /** Whatever was witnessed at some point of a reader's life, the file found later verifies
      and extends it. */
  lemma WitnessedIsKept(g: Genesis, c: Checkpoints, deeds: seq<Deed>, n: nat)
    requires GenesisOk(g) && Good(c) && AllCanHappen(g, c, NEWBORN, deeds) && n <= |deeds|
    requires AllLived(g, c, NEWBORN, deeds).held.None?
    ensures
      var shown := AllLived(g, c, NEWBORN, deeds[..n]).witnessed;
      var found := OpenedReader(g, c, AllLived(g, c, NEWBORN, deeds).dir, Completes);
      && found.Ok? && shown <= found.value && Rebuilt(g, found.value).Ok?
  {
    hide AllLived, FollowedAll, Good, GenesisOk, Rebuilt, AllCanHappen;
    EveryLifeIsSafe(g, c, deeds);
    NothingIsUnseen(g, c, deeds, n);
    var l := AllLived(g, c, NEWBORN, deeds);
    assert Extending(g, c, l.dir.names[|l.dir.names| - 1], l.witnessed);
    StartFollows(g);
    FollowersRebuild(g, OpenedReader(g, c, l.dir, Completes).value);
  }

  lemma StartFollows(g: Genesis)
    requires GenesisOk(g)
    ensures FollowedAll(g, []).Ok?
  {
    hide VerifyAt;
  }

  // ------------------------------------------------------------------ what a marker promises

  /** The file holds exactly these frames, durably. */
  ghost predicate Holds(c: Checkpoints, name: Option<Inode>, frames: seq<Frame>) {
    match name
    case None => frames == []
    case Some(inode) => inode.synced && c.dec(inode.bytes) == Some(frames)
  }

  /** While a reader is open, one of the files its name may be found to stand for holds what
      was witnessed and no more. */
  ghost predicate Anchored(c: Checkpoints, l: Life) {
    && |l.dir.names| > 0
    && (l.held.Some? ==> exists i :: 0 <= i < |l.dir.names| && Holds(c, l.dir.names[i], l.witnessed))
  }

  lemma DeedAnchors(g: Genesis, c: Checkpoints, l: Life, deed: Deed)
    requires Good(c) && Anchored(c, l)
    ensures Anchored(c, Lived(g, c, l, deed))
  {
    hide FollowedAll;
    var l' := Lived(g, c, l, deed);
    if l'.held.Some? {
      match deed {
        case Opening(fate) =>
          if l.held.None? {
            assert Holds(c, l'.dir.names[|l'.dir.names| - 1], l'.witnessed);
          }
        case SaveOnly(fate) => SaveAnchors(c, l, l.held.value, fate);
        case ApplySave(f, fate) => SaveAnchors(c, l, l.held.value + [f], fate);
        case _ =>
      }
    }
  }

  lemma SaveAnchors(c: Checkpoints, l: Life, frames: seq<Frame>, fate: Fate)
    requires Good(c) && Anchored(c, l) && l.held.Some?
    ensures
      var names := AfterSave(l.dir, c.enc(frames), fate).names;
      exists i :: 0 <= i < |names| && Holds(c, names[i], if fate.Completes? then frames else l.witnessed)
  {
    var names := AfterSave(l.dir, c.enc(frames), fate).names;
    if fate.Completes? {
      assert c.dec(c.enc(frames)) == Some(frames);
      assert Holds(c, names[0], frames);
    } else {
      var i :| 0 <= i < |l.dir.names| && Holds(c, l.dir.names[i], l.witnessed);
      assert names[i] == l.dir.names[i];
    }
  }

  lemma {:induction false} EveryLifeIsAnchored(g: Genesis, c: Checkpoints, deeds: seq<Deed>)
    requires Good(c)
    ensures Anchored(c, AllLived(g, c, NEWBORN, deeds))
  {
    hide Lived, Good, Anchored;
    if |deeds| == 0 {
      NewbornIsAnchored(c);
    } else {
      EveryLifeIsAnchored(g, c, deeds[..|deeds| - 1]);
      DeedAnchors(g, c, AllLived(g, c, NEWBORN, deeds[..|deeds| - 1]), deeds[|deeds| - 1]);
    }
  }

  lemma NewbornIsAnchored(c: Checkpoints)
    ensures Anchored(c, NEWBORN)
  {
  }

  /** Whatever a power loss leaves opens, and shows everything the reader holds now. */
  ghost predicate Survives(g: Genesis, c: Checkpoints, l: Life)
    requires l.held.Some?
  {
    forall found {:trigger MayFind(l.dir, found)} :: MayFind(l.dir, found) ==>
      var shows := OpenedReader(g, c, AfterLoss(found), Completes);
      shows.Ok? && l.held.value <= shows.value
  }

  lemma FoundOpens(g: Genesis, c: Checkpoints, l: Life, found: Option<seq<byte>>)
    requires GenesisOk(g) && Safe(g, c, l) && MayFind(l.dir, found)
    ensures
      var shows := OpenedReader(g, c, AfterLoss(found), Completes);
      shows.Ok? && l.witnessed <= shows.value
  {
    hide FollowedAll, GenesisOk;
    StartFollows(g);
    var i :| 0 <= i < |l.dir.names| && Survivor(l.dir.names[i], found);
    assert Extending(g, c, l.dir.names[i], l.witnessed);
  }

  /** The file left may be the one that holds exactly what was witnessed. */
  lemma OnlyWitnessed(g: Genesis, c: Checkpoints, l: Life)
    requires GenesisOk(g) && Safe(g, c, l) && Anchored(c, l) && l.held.Some?
    ensures exists found :: MayFind(l.dir, found) && OpenedReader(g, c, AfterLoss(found), Completes) == Ok(l.witnessed)
  {
    hide FollowedAll, GenesisOk;
    StartFollows(g);
    var i :| 0 <= i < |l.dir.names| && Holds(c, l.dir.names[i], l.witnessed);
    assert Extending(g, c, l.dir.names[i], l.witnessed);
    var found := if l.dir.names[i].Some? then Some(l.dir.names[i].value.bytes) else None;
    assert Survivor(l.dir.names[i], found);
    assert MayFind(l.dir, found);
  }

  /**
   What a marker promises, exactly. A marker is reported without a save of its own; at any
   point of any life of a reader, what it holds then survives every power loss if and only
   if everything it holds has been saved.
   */
  lemma MarkerSurvivesExactly(g: Genesis, c: Checkpoints, deeds: seq<Deed>)
    requires GenesisOk(g) && Good(c) && AllCanHappen(g, c, NEWBORN, deeds)
    requires AllLived(g, c, NEWBORN, deeds).held.Some?
    ensures
      var l := AllLived(g, c, NEWBORN, deeds);
      Survives(g, c, l) <==> l.held.value == l.witnessed
  {
    hide AllLived, FollowedAll, Good, GenesisOk, AllCanHappen, OpenedReader, Anchored, MayFind;
    var l := AllLived(g, c, NEWBORN, deeds);
    EveryLifeIsSafe(g, c, deeds);
    EveryLifeIsAnchored(g, c, deeds);
    forall found | MayFind(l.dir, found)
      ensures
        var shows := OpenedReader(g, c, AfterLoss(found), Completes);
        shows.Ok? && l.witnessed <= shows.value
    {
      FoundOpens(g, c, l, found);
    }
    OnlyWitnessed(g, c, l);
  }

  /** It can happen that it does not: a frame applied and not saved, a marker that agrees with
      it reported, the power lost; and the reader opens on nothing. */
  lemma UnsavedMarkerIsLost(g: Genesis, c: Checkpoints, f: Frame, once: bool)
    requires GenesisOk(g) && FollowedAll(g, [f]).Ok?
    ensures
      var deeds := [Opening(Completes), ApplyOnly(f)];
      var l := AllLived(g, c, NEWBORN, deeds);
      var index := AdmittedCount(FollowedAll(g, [f]).value);
      && l.held == Some([f])
      && Watched(g, c, l, [CaughtEvent(index)], [Completes], once).seen == [SeenCaught(index)]
      && AllCanHappen(g, c, NEWBORN, deeds + [LosingPower(None)])
      && OpenedReader(g, c, AllLived(g, c, NEWBORN, deeds + [LosingPower(None)]).dir, Completes) == Ok([])
  {
    hide FollowedAll, GenesisOk;
    StartFollows(g);
    var deeds := [Opening(Completes), ApplyOnly(f)];
    var d2, d3 := deeds[..1], deeds + [LosingPower(None)];
    assert d2[..0] == [] && deeds[..1] == d2 && d3[..2] == deeds && [] + [f] == [f];
    assert AllLived(g, c, NEWBORN, d2[..0]) == NEWBORN;
    assert AllLived(g, c, NEWBORN, d2) == Life(EMPTY_DIR, Some([]), []);
    assert AllLived(g, c, NEWBORN, deeds) == Life(EMPTY_DIR, Some([f]), []);
    assert Survivor(EMPTY_DIR.names[0], None);
    assert AllCanHappen(g, c, NEWBORN, d2);
    assert AllCanHappen(g, c, NEWBORN, deeds);
  }

  // ------------------------------------------------------------------ the reader itself

  class Reader {
    const fs: Fs
    const genesis: Genesis
    const codec: Checkpoints
    var follower: Follower
    var frames: seq<Frame>

    /** The follower is the fold of the frames held. */
    ghost predicate Valid()
      reads this, fs, follower, follower.st, follower.st.Repr
    {
      && fs.Valid() && follower.Valid() && follower.st.Valid()
      && fs !in follower.st.Repr && this !in follower.st.Repr
      && FollowedAll(genesis, frames) == Ok(follower.st.View())
    }

    constructor (g: Genesis, codec: Checkpoints, fs: Fs, follower: Follower, frames: seq<Frame>)
      ensures this.genesis == g && this.codec == codec && this.fs == fs && this.follower == follower && this.frames == frames
    {
      this.genesis, this.codec, this.fs, this.follower, this.frames := g, codec, fs, follower, frames;
    }

    /** Extends the prefix held by a frame that follows, and leaves it alone otherwise; the
        directory is not touched. */
    method Apply(frame: Frame) returns (r: Result<(), ReaderError>)
      requires Valid()
      modifies this, follower
      ensures Valid() && follower == old(follower) && (r.Ok? ==> fresh(follower.st) && fresh(follower.st.Repr))
      ensures
        match FollowedAll(genesis, old(frames) + [frame])
        case Ok(_) => r.Ok? && frames == old(frames) + [frame]
        case Err(e) => r == Err(FollowFault(e)) && frames == old(frames) && follower.st == old(follower.st)
    {
      hide Followed, FollowedAll;
      FollowedMore(genesis, frames, frame);
      var step := follower.Apply(frame);
      if step.Err? {
        return Err(FollowFault(step.error));
      }
      frames := frames + [frame];
      return Ok(());
    }

    /** Save atomically; the head is witnessed only once this returns. */
    method Save() returns (ok: bool)
      requires Valid()
      modifies fs`names, fs`tmp
      ensures Valid()
      ensures fs.View() == AfterSave(old(fs.View()), codec.enc(frames), fs.fate) && (ok <==> fs.fate.Completes?)
    {
      hide FollowedAll, AfterSave;
      ok := SaveAtomic(fs, codec.enc(frames));
    }

    /** Extends the prefix held only if the longer one is also saved. */
    method ApplySaved(frame: Frame) returns (r: Result<(), ReaderError>)
      requires Valid()
      modifies this, follower, fs`names, fs`tmp
      ensures Valid() && (follower == old(follower) || fresh(follower))
      ensures
        match FollowedAll(genesis, old(frames) + [frame])
        case Err(e) => r == Err(FollowFault(e)) && frames == old(frames) && fs.View() == old(fs.View())
        case Ok(_) =>
          && fs.View() == AfterSave(old(fs.View()), codec.enc(old(frames) + [frame]), fs.fate)
          && (if fs.fate.Completes? then r.Ok? && frames == old(frames) + [frame] else r == Err(NotSaved) && frames == old(frames))
    {
      hide FollowedAll, AfterSave;
      var before := new Follower.Clone(follower);
      r := Apply(frame);
      if r.Err? {
        return;
      }
      var ok := Save();
      if !ok {
        Revert(before);
        return Err(NotSaved);
      }
      return Ok(());
    }

    /** Back to the prefix before the last frame. */
    method Revert(before: Follower)
      requires fs.Valid() && before.Valid() && before.st.Valid() && fs !in before.st.Repr && this !in before.st.Repr
      requires |frames| > 0 && FollowedAll(genesis, frames[..|frames| - 1]) == Ok(before.st.View())
      modifies this
      ensures Valid() && follower == before && frames == old(frames)[..|old(frames)| - 1]
    {
      hide FollowedAll;
      frames := frames[..|frames| - 1];
      follower := before;
    }

    /** What the next save runs into. */
    method Meets(fate: Fate)
      requires Valid()
      modifies fs`fate
      ensures Valid() && fs.fate == fate
    {
      hide FollowedAll;
      fs.fate := fate;
    }

    /** How many events the reader has verified. */
    method Admitted() returns (n: nat)
      requires Valid()
      ensures FollowedAll(genesis, frames).Ok? && n == AdmittedCount(FollowedAll(genesis, frames).value)
    {
      hide FollowedAll;
      n := AdmittedCount(follower.st.Snapshot());
    }
  }

  /** Load and re-verify the saved prefix, once it is durable. */
  method OpenReader(g: Genesis, codec: Checkpoints, fs: Fs) returns (reader: Reader?, error: Option<ReaderError>)
    requires fs.Valid()
    modifies fs
    ensures fs.fate == old(fs.fate) && fs.Valid() && fs.View() == OpenedDir(old(fs.View()), fs.fate)
    ensures
      match OpenedReader(g, codec, old(fs.View()), fs.fate)
      case Err(e) => error == Some(e) && reader == null
      case Ok(frames) => error.None? && reader != null && fresh(reader) && reader.Valid() && reader.frames == frames && reader.fs == fs
  {
    hide FollowedAll, Reader.Valid;
    fs.Remove();
    var name := fs.names[|fs.names| - 1];
    var frames: seq<Frame> := [];
    if name.Some? {
      var synced := fs.SyncVisible();
      if !synced {
        return null, Some(NotSaved);
      }
      var durable := fs.SyncDir();
      if !durable {
        return null, Some(NotSaved);
      }
      var decoded := codec.dec(name.value.bytes);
      if decoded.None? {
        return null, Some(BadCheckpoint);
      }
      frames := decoded.value;
    }
    reader, error := FollowFrom(g, codec, fs, frames);
  }

  /** Follow a list of frames from genesis. */
  method FollowFrom(g: Genesis, codec: Checkpoints, fs: Fs, frames: seq<Frame>) returns (reader: Reader?, error: Option<ReaderError>)
    requires fs.Valid()
    ensures
      match FollowedAll(g, frames)
      case Err(e) => error == Some(FollowFault(e)) && reader == null
      case Ok(_) => error.None? && reader != null && fresh(reader) && reader.Valid() && reader.frames == frames && reader.fs == fs
  {
    hide Followed;
    var start := Start(g);
    assert frames[..0] == [];
    if start.Err? {
      FollowFailureSticks(g, frames, 0);
      return null, Some(BadFrame(start.error));
    }
    var follower := new Follower(start.value);
    for i := 0 to |frames|
      invariant fresh(follower) && fresh(follower.st) && fresh(follower.st.Repr) && follower.Valid()
      invariant FollowedAll(g, frames[..i]) == Ok(follower.st.View())
    {
      assert frames[..i + 1] == frames[..i] + [frames[i]];
      FollowedMore(g, frames[..i], frames[i]);
      var step := follower.Apply(frames[i]);
      if step.Err? {
        FollowFailureSticks(g, frames, i + 1);
        return null, Some(FollowFault(step.error));
      }
    }
    assert frames[..|frames|] == frames;
    reader := new Reader(g, codec, fs, follower, frames);
    return reader, None;
  }

  /** Follow a stream. `fates` says how each save goes; `shown` is what this reader has shown
      as saved before. */
  method FollowOn(reader: Reader, events: seq<WatchEvent>, fates: seq<Fate>, once: bool, ghost shown: seq<Frame>)
    returns (seen: seq<Seen>, r: Result<(), ReaderError>)
    requires reader.Valid() && |fates| == |events|
    modifies reader, reader.fs, reader.follower
    ensures reader.Valid() && old(FollowedAll(reader.genesis, reader.frames)).Ok?
    ensures
      var w := Watched(reader.genesis, reader.codec, Life(old(reader.fs.View()), Some(old(reader.frames)), shown), events, fates, once);
      && seen == w.seen && r == w.result
      && reader.fs.View() == w.life.dir && Some(reader.frames) == w.life.held
  {
    hide FollowedAll, Reader.Valid, Step, Reports, Stops, SeenFrames, Watched;
    seen := [];
    HoldsFold(reader);
    ghost var g, c := reader.genesis, reader.codec;
    ghost var start := Life(reader.fs.View(), Some(reader.frames), shown);
    ghost var now := start;
    for i := 0 to |events|
      invariant reader.Valid() && (reader.follower == old(reader.follower) || fresh(reader.follower))
      invariant now.held.Some? && FollowedAll(g, now.held.value).Ok?
      invariant reader.fs.View() == now.dir && Some(reader.frames) == now.held
      invariant Watched(g, c, start, events, fates, once) == Then(seen, i, Watched(g, c, now, events[i..], fates[i..], once))
    {
      OneEvent(g, c, now, events[i], fates[i]);
      WatchedNext(g, c, now, events, fates, once, seen, i);
      var shownNow, stop := TakeEvent(reader, events[i], fates[i], once, now);
      seen := seen + shownNow;
      if stop.Some? {
        return seen, stop.value;
      }
      now := Step(g, c, now, events[i], fates[i]);
    }
    WatchedEnd(g, c, now, once);
    return seen, Err(StreamEnded);
  }

  lemma WatchedNext(
    g: Genesis, c: Checkpoints, l: Life, events: seq<WatchEvent>, fates: seq<Fate>, once: bool, seen: seq<Seen>, i: nat)
    requires i < |events| == |fates| && l.held.Some? && FollowedAll(g, l.held.value).Ok?
    ensures
      var l', s := Step(g, c, l, events[i], fates[i]), seen + Reports(g, l, events[i], fates[i]);
      && l'.held.Some? && FollowedAll(g, l'.held.value).Ok?
      && Then(seen, i, Watched(g, c, l, events[i..], fates[i..], once))
         == match Stops(g, l, events[i], fates[i], once)
            case Some(r) => Watch(s, i + 1, r, l')
            case None => Then(s, i + 1, Watched(g, c, l', events[i + 1..], fates[i + 1..], once))
  {
    hide FollowedAll, Step, Reports, Stops, SeenFrames;
    OneEvent(g, c, l, events[i], fates[i]);
    assert events[i..][1..] == events[i + 1..] && fates[i..][1..] == fates[i + 1..];
    if Stops(g, l, events[i], fates[i], once).None? {
      var w := Watched(g, c, Step(g, c, l, events[i], fates[i]), events[i + 1..], fates[i + 1..], once);
      assert seen + (Reports(g, l, events[i], fates[i]) + w.seen) == (seen + Reports(g, l, events[i], fates[i])) + w.seen;
    }
  }

  lemma WatchedEnd(g: Genesis, c: Checkpoints, l: Life, once: bool)
    requires l.held.Some? && FollowedAll(g, l.held.value).Ok?
    ensures Watched(g, c, l, [], [], once) == Watch([], 0, Err(StreamEnded), l)
  {
    hide FollowedAll;
  }

  /** One turn of the loop: what it reports, and how it ends if it does. */
  method TakeEvent(reader: Reader, e: WatchEvent, fate: Fate, once: bool, ghost l: Life)
    returns (seen: seq<Seen>, stop: Option<Result<(), ReaderError>>)
    requires reader.Valid() && FollowedAll(reader.genesis, reader.frames).Ok?
    requires l.held == Some(reader.frames) && l.dir == reader.fs.View()
    modifies reader, reader.fs, reader.follower
    ensures reader.Valid() && (reader.follower == old(reader.follower) || fresh(reader.follower))
    ensures seen == Reports(reader.genesis, l, e, fate) && stop == Stops(reader.genesis, l, e, fate, once)
    ensures
      var l' := Step(reader.genesis, reader.codec, l, e, fate);
      reader.fs.View() == l'.dir && Some(reader.frames) == l'.held
  {
    hide FollowedAll, AfterSave, Reader.Valid;
    reader.Meets(fate);
    match e {
      case FrameEvent(f) =>
        var step := reader.ApplySaved(f);
        if step.Err? {
          return [], Some(step);
        }
        return [SeenFrame(f)], None;
      case CaughtEvent(index) =>
        var admitted := reader.Admitted();
        if index != admitted {
          return [], Some(Err(WrongMarker));
        }
        return [SeenCaught(index)], if once then Some(Ok(())) else None;
      case ClosedEvent =>
        return [], Some(if once then Err(StreamEnded) else Ok(()));
    }
  }

  lemma HoldsFold(reader: Reader)
    requires reader.Valid()
    ensures FollowedAll(reader.genesis, reader.frames).Ok?
  {
  }
}

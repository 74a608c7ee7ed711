/** One log file as bytes on a disk: appends, recovery, and what a crash may leave of them. */
module LogModel {
  import opened Results
  import opened Codec

  /** A file: what would survive power loss now, and what a reader of it sees now. */
  datatype Disk = Disk(durable: seq<byte>, visible: seq<byte>)

  /** Where an append dies. An I/O error in the write or the sync is one of these too. */
  datatype CrashPlan =
    | AfterBytes(n: nat)
    | BeforeSync
    | AfterSync

  datatype LogError = TooLong | Io

  /** What power loss may leave: the durable bytes, and any part of what lies between them
      and the visible ones (bytes written but not synced, or cut but not synced). */
  ghost predicate Survives(d: Disk, found: seq<byte>) {
    (d.durable <= found <= d.visible) || (d.visible <= found <= d.durable)
  }

  /** Write at an offset, as far as the bytes go. */
  function Written(visible: seq<byte>, at: nat, bytes: seq<byte>): seq<byte>
    requires at <= |visible|
  {
    visible[..at] + bytes + if at + |bytes| < |visible| then visible[at + |bytes|..] else []
  }

  function Take(bytes: seq<byte>, n: nat): seq<byte> {
    if n < |bytes| then bytes[..n] else bytes
  }

  /** The file after an append that may die where the plan says. */
  function Appended(d: Disk, end: nat, bytes: seq<byte>, plan: Option<CrashPlan>): Disk
    requires end <= |d.visible|
  {
    match plan
    case Some(AfterBytes(n)) => d.(visible := Written(d.visible, end, Take(bytes, n)))
    case Some(BeforeSync) => d.(visible := Written(d.visible, end, bytes))
    case _ => Disk(Written(d.visible, end, bytes), Written(d.visible, end, bytes))
  }

  /** The file after recovery: the incomplete final frame cut, and everything synced. */
  function Recovered(d: Disk, cut: Option<nat>): Disk
    requires cut.Some? ==> cut.value <= |d.visible|
  {
    var kept := if cut.Some? then d.visible[..cut.value] else d.visible;
    Disk(kept, kept)
  }

  /** Where recovery fails: before it has done anything, or with only its sync left. */
  datatype RecoveryFault = AtFirst | AtSync

  /** The file after a recovery that failed: cut, perhaps, but not synced. */
  function CutOnly(d: Disk, kept: Disk): Disk { Disk(d.durable, kept.visible) }

  /** The file itself: it outlives the process that writes it. */
  class File {
    var durable: seq<byte>
    var visible: seq<byte>

    function View(): Disk
      reads this
    {
      Disk(durable, visible)
    }

    constructor ()
      ensures View() == Disk([], [])
    {
      durable, visible := [], [];
    }

    method WriteAt(at: nat, bytes: seq<byte>)
      requires at <= |visible|
      modifies this
      ensures View() == Disk(old(durable), Written(old(visible), at, bytes))
    {
      visible := visible[..at] + bytes + if at + |bytes| < |visible| then visible[at + |bytes|..] else [];
    }

    method SetLen(n: nat)
      requires n <= |visible|
      modifies this
      ensures View() == Disk(old(durable), old(visible)[..n])
    {
      visible := visible[..n];
    }

    method Sync()
      modifies this
      ensures View() == Disk(old(visible), old(visible))
    {
      durable := visible;
    }

    method PowerLoss(found: seq<byte>)
      requires Survives(View(), found)
      modifies this
      ensures View() == Disk(found, found)
    {
      durable, visible := found, found;
    }
  }

  class Log<T(!new)> {
    const codec: Codec<T>
    const file: File
    var end: nat
    var cut: Option<nat>
    var plan: Option<CrashPlan>
    var syncs: nat

    /** Where the next append goes is inside the file, and so is a noted cut. */
    ghost predicate Valid()
      reads this, file
    {
      end <= |file.visible| && (cut.Some? ==> cut.value <= |file.visible|)
    }

    constructor (codec: Codec<T>, file: File, end: nat, cut: Option<nat>)
      ensures this.codec == codec && this.file == file && this.end == end && this.cut == cut
      ensures plan.None? && syncs == 0
    {
      this.codec, this.file, this.end, this.cut, this.plan, this.syncs := codec, file, end, cut, None, 0;
    }

    /** Reads the file and remembers, without changing it, where its whole frames end. */
    static method Open(codec: Codec<T>, file: File) returns (log: Log?<T>, frames: seq<(nat, T)>, corrupt: Option<nat>)
      requires Good(codec)
      ensures
        match ParsedFrom(codec, file.visible, 0, [])
        case Corrupt(offset) => corrupt == Some(offset) && log == null
        case Parsed(fs, end, cut) =>
          && corrupt.None? && log != null && fresh(log) && log.Valid()
          && log.codec == codec && log.file == file && log.end == end && log.cut == cut && log.plan.None?
          && (if cut.None? then end == |file.visible| else cut == Some(end))
          && frames == fs
    {
      var p := Parse(codec, file.visible);
      match p {
        case Corrupt(offset) =>
          return null, [], Some(offset);
        case Parsed(fs, end, cut) =>
          ParsedIsEncoded(codec, file.visible, 0, []);
          ParsedCuts(codec, file.visible, 0, []);
          log := new Log(codec, file, end, cut);
          return log, fs, None;
      }
    }

    /** Cut the incomplete final frame, and make what is kept durable either way: whole
        frames can be visible without ever having been synced. Either step may fail. */
    method CommitRecovery(fault: Option<RecoveryFault>) returns (ok: bool)
      requires Valid() && (cut.Some? ==> cut == Some(end))
      modifies this, file
      ensures Valid() && (ok <==> fault.None?)
      ensures
        match fault
        case None =>
          && file.View() == Recovered(old(file.View()), old(cut))
          && (old(cut.Some? || end == |file.visible|) ==> end == |file.visible|)
          && syncs == old(syncs) + 1
        case Some(AtFirst) => file.View() == old(file.View()) && syncs == old(syncs)
        case Some(AtSync) => file.View() == CutOnly(old(file.View()), Recovered(old(file.View()), old(cut))) && syncs == old(syncs)
      ensures cut.None? && end == old(end) && plan == old(plan)
    {
      var at := cut;
      cut := None;
      if fault.Some? && fault.value.AtFirst? {
        return false;
      }
      if at.Some? {
        file.SetLen(at.value);
      }
      if fault.Some? {
        return false;
      }
      file.Sync();
      syncs := syncs + 1;
      return true;
    }

    /** Write one frame and fsync it, or die where the plan says. */
    method Append(v: T) returns (r: Result<(), LogError>)
      requires Good(codec) && Valid()
      modifies this, file
      ensures !Fits(codec, v) ==> r == Err(TooLong) && file.View() == old(file.View()) && end == old(end) && plan == old(plan)
      ensures Fits(codec, v) ==>
                && file.View() == Appended(old(file.View()), old(end), Encoded(codec, v), old(plan))
                && plan.None?
                && (r.Ok? <==> old(plan).None?)
                && end == old(end) + (if r.Ok? then |Encoded(codec, v)| else 0)
                && (r.Err? ==> r.error == Io)
      ensures Valid() && (r.Ok? && old(end == |file.visible|) ==> end == |file.visible|)
      ensures cut == old(cut) && (r.Ok? ==> syncs == old(syncs) + 1)
    {
      if |codec.enc(v)| >= LIMIT {
        return Err(TooLong);
      }
      var bytes := Encoded(codec, v);
      var armed := plan;
      plan := None;
      match armed {
        case Some(AfterBytes(n)) =>
          file.WriteAt(end, Take(bytes, n));
          return Err(Io);
        case Some(BeforeSync) =>
          file.WriteAt(end, bytes);
          return Err(Io);
        case Some(AfterSync) =>
          file.WriteAt(end, bytes);
          file.Sync();
          return Err(Io);
        case None =>
      }
      file.WriteAt(end, bytes);
      file.Sync();
      syncs := syncs + 1;
      end := end + |bytes|;
      return Ok(());
    }
  }

  /** A noted cut is where the whole frames end. */
  lemma {:induction false} ParsedCuts<T>(c: Codec<T>, bytes: seq<byte>, at: nat, frames: seq<(nat, T)>)
    requires at <= |bytes| && ParsedFrom(c, bytes, at, frames).Parsed?
    ensures var p := ParsedFrom(c, bytes, at, frames); p.cut.Some? ==> p.cut == Some(p.end)
    decreases |bytes| - at
  {
    var n := NextAt(c, bytes, at);
    if n.Whole? {
      ParsedCuts(c, bytes, n.end, frames + [(at, n.value)]);
    }
  }

  // ------------------------------------------------------------------ crashes

  /** The file holds the frames `vs`, all durable, and nothing else. */
  ghost predicate Settled<T>(c: Codec<T>, d: Disk, vs: seq<T>)
    requires AllFit(c, vs)
  {
    d == Disk(EncodedAll(c, vs), EncodedAll(c, vs))
  }

  /** The file holds the frames `vs`, durably and visibly, and either may go on with part
      or all of one more. */
  ghost predicate InFlight<T>(c: Codec<T>, d: Disk, vs: seq<T>, more: seq<T>)
    requires AllFit(c, vs) && AllFit(c, vs + more)
  {
    && EncodedAll(c, vs) <= d.durable <= EncodedAll(c, vs + more)
    && EncodedAll(c, vs) <= d.visible <= EncodedAll(c, vs + more)
  }

  /** However an append to a settled file dies, the file is pending; if it does not die,
      the file is settled with one more frame. */
  lemma AppendLeaves<T(!new)>(c: Codec<T>, d: Disk, vs: seq<T>, v: T, plan: Option<CrashPlan>)
    requires Good(c) && AllFit(c, vs) && Fits(c, v) && Settled(c, d, vs)
    ensures AllFit(c, vs + [v])
    ensures InFlight(c, Appended(d, |d.visible|, Encoded(c, v), plan), vs, [v])
    ensures plan.None? ==> Settled(c, Appended(d, |d.visible|, Encoded(c, v), plan), vs + [v])
  {
    hide Encoded, Good;
    assert (vs + [v])[..|vs|] == vs;
  }

  /** Power loss keeps a pending file pending, with nothing left to lose. */
  lemma LossKeepsInFlight<T>(c: Codec<T>, d: Disk, vs: seq<T>, more: seq<T>, found: seq<byte>)
    requires AllFit(c, vs) && AllFit(c, vs + more) && InFlight(c, d, vs, more) && Survives(d, found)
    ensures InFlight(c, Disk(found, found), vs, more)
  {
    hide EncodedAll;
  }

  /** So does a recovery that dies after the cut, before the sync. */
  lemma CutKeepsInFlight<T(!new)>(c: Codec<T>, d: Disk, vs: seq<T>, more: seq<T>)
    requires Good(c) && AllFit(c, vs) && AllFit(c, vs + more) && |more| <= 1 && InFlight(c, d, vs, more)
    ensures
      var p := ParsedFrom(c, d.visible, 0, []);
      && p.Parsed? && (p.cut.Some? ==> p.cut.value <= |d.visible|)
      && InFlight(c, Disk(d.durable, Recovered(d, p.cut).visible), vs, more)
  {
    hide EncodedAll, ParsedFrom, Good;
    InFlightParses(c, d, vs, more);
  }

  /** What a pending file parses to: the old frames, or those and the whole new one; never
      corruption. Recovery then settles it on exactly those frames. */
  lemma InFlightParses<T(!new)>(c: Codec<T>, d: Disk, vs: seq<T>, more: seq<T>)
    requires Good(c) && AllFit(c, vs) && AllFit(c, vs + more) && |more| <= 1 && InFlight(c, d, vs, more)
    ensures
      var p := ParsedFrom(c, d.visible, 0, []);
      && p.Parsed?
      && (p.frames == Placed(c, vs) || p.frames == Placed(c, vs + more))
      && (p.cut.Some? ==> p.cut.value <= |d.visible|)
      && AllFit(c, Values(p.frames)) && Settled(c, Recovered(d, p.cut), Values(p.frames))
      && p.end == |Recovered(d, p.cut).visible|
      && (Values(p.frames) == vs || Values(p.frames) == vs + more)
  {
    hide Encoded, Good, NextAt, ParsedFrom;
    var all := vs + more;
    var n := |d.visible|;
    assert d.visible == EncodedAll(c, all)[..n];
    PrefixParses(c, all, n);
    var k := WholeWithin(c, all, n);
    assert all[..|vs|] == vs;
    assert k < |vs| ==> all[..k + 1] == vs[..k + 1];
    if k < |vs| {
      EncodedAppends(c, vs, k + 1);
    }
    assert all[..k] == vs || all[..k] == all;
    TornRecovers(c, all, n);
    PlacedValues(c, all[..k]);
  }

  /** A whole file parses to exactly its frames, with nothing to cut. */
  lemma WholeFileParses<T(!new)>(c: Codec<T>, vs: seq<T>)
    requires Good(c) && AllFit(c, vs)
    ensures ParsedFrom(c, EncodedAll(c, vs), 0, []) == Parsed(Placed(c, vs), |EncodedAll(c, vs)|, None)
    ensures Values(Placed(c, vs)) == vs
  {
    hide Encoded, Good, NextAt, ParsedFrom;
    var bytes := EncodedAll(c, vs);
    PrefixParses(c, vs, |bytes|);
    assert bytes[..|bytes|] == bytes;
    assert vs[..|vs|] == vs;
    PlacedValues(c, vs);
  }

  /** Recovery settles a torn file on exactly the frames it holds whole. */
  lemma TornRecovers<T(!new)>(c: Codec<T>, vs: seq<T>, n: nat)
    requires Good(c) && AllFit(c, vs) && n <= |EncodedAll(c, vs)|
    ensures
      var torn := EncodedAll(c, vs)[..n];
      var p := ParsedFrom(c, torn, 0, []);
      var kept := vs[..WholeWithin(c, vs, n)];
      && p.Parsed? && (p.cut.Some? ==> p.cut.value <= |torn|)
      && Values(p.frames) == kept
      && Settled(c, Recovered(Disk(torn, torn), p.cut), kept)
      && p.end == |Recovered(Disk(torn, torn), p.cut).visible|
  {
    hide Encoded, Good, NextAt, ParsedFrom;
    var k := WholeWithin(c, vs, n);
    PrefixParses(c, vs, n);
    EncodedAppends(c, vs, k);
    PlacedValues(c, vs[..k]);
  }

  /** Cutting where a torn file says and appending again gives the old frames and the new. */
  lemma CutThenAppend<T(!new)>(c: Codec<T>, vs: seq<T>, n: nat, v: T)
    requires Good(c) && AllFit(c, vs) && n <= |EncodedAll(c, vs)| && Fits(c, v)
    ensures
      var torn := EncodedAll(c, vs)[..n];
      var p := ParsedFrom(c, torn, 0, []);
      && p.Parsed? && (p.cut.Some? ==> p.cut.value <= |torn|)
      && var d := Recovered(Disk(torn, torn), p.cut);
      && p.end == |d.visible|
      && var p' := ParsedFrom(c, Appended(d, p.end, Encoded(c, v), None).visible, 0, []);
      && p'.Parsed? && p'.cut.None? && Values(p'.frames) == Values(p.frames) + [v]
  {
    hide Encoded, Good, NextAt, ParsedFrom, Appended, Recovered, EncodedAll;
    var torn, kept := EncodedAll(c, vs)[..n], vs[..WholeWithin(c, vs, n)];
    TornRecovers(c, vs, n);
    var p := ParsedFrom(c, torn, 0, []);
    AppendLeaves(c, Recovered(Disk(torn, torn), p.cut), kept, v, None);
    WholeFileParses(c, kept + [v]);
  }
}

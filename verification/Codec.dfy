/**
 The frame: the one hand-made byte format. A payload codec is any pair of functions that
 round-trips and decodes canonically; the header check is any function of the length.
 */
module Codec {
  import opened Results

  newtype byte = x: int | 0 <= x < 256

  const HEADER_LEN: nat := 8
  const LIMIT: nat := 0x1_0000_0000

  datatype Codec<!T> = Codec(
    enc: T -> seq<byte>,
    dec: seq<byte> -> Option<T>,
    check: seq<byte> -> seq<byte>)

  ghost predicate Good<T(!new)>(c: Codec<T>) {
    && (forall v: T {:trigger c.enc(v)} :: c.dec(c.enc(v)) == Some(v))
    && (forall b, v: T {:trigger c.dec(b), c.enc(v)} :: c.dec(b) == Some(v) ==> c.enc(v) == b)
    && (forall l {:trigger c.check(l)} :: |l| == 4 ==> |c.check(l)| == 4)
  }

  // ------------------------------------------------------------------ lengths

  /** Big-endian, most significant byte first. */
  function Be32(n: nat): (s: seq<byte>)
    requires n < LIMIT
    ensures |s| == 4
  {
    var hi := n / 0x100;
    var top := hi / 0x100;
    [(top / 0x100) as byte, (top % 0x100) as byte, (hi % 0x100) as byte, (n % 0x100) as byte]
  }

  function FromBe32(s: seq<byte>): (n: nat)
    requires |s| == 4
    ensures n < LIMIT
  {
    ((s[0] as nat * 0x100 + s[1] as nat) * 0x100 + s[2] as nat) * 0x100 + s[3] as nat
  }

  lemma BeReadsBack(n: nat)
    requires n < LIMIT
    ensures FromBe32(Be32(n)) == n
  {
  }

  lemma BeWritesBack(s: seq<byte>)
    requires |s| == 4
    ensures Be32(FromBe32(s)) == s
  {
    var top := s[0] as int * 0x100 + s[1] as int;
    var hi := top * 0x100 + s[2] as int;
    Digit(top, s[2] as int);
    Digit(hi, s[3] as int);
  }

  lemma Digit(a: nat, b: nat)
    requires b < 0x100
    ensures (a * 0x100 + b) / 0x100 == a && (a * 0x100 + b) % 0x100 == b
  {
  }

  // ------------------------------------------------------------------ one frame

  predicate Fits<T>(c: Codec<T>, v: T) {
    |c.enc(v)| < LIMIT
  }

  /** Header and payload. A payload of 4 GiB or more has no frame. */
  function Encoded<T>(c: Codec<T>, v: T): (bytes: seq<byte>)
    requires Fits(c, v)
    ensures |bytes| >= |c.enc(v)|
  {
    var len := Be32(|c.enc(v)|);
    len + c.check(len) + c.enc(v)
  }

  datatype Next<T> = End | Torn | Whole(value: T, end: nat) | Damaged

  /** What sits at an offset. */
  function NextAt<T>(c: Codec<T>, bytes: seq<byte>, at: nat): (r: Next<T>)
    requires at <= |bytes|
    ensures r.Whole? ==> at + HEADER_LEN <= r.end <= |bytes|
  {
    var rest := bytes[at..];
    if |rest| == 0 then End
    else if |rest| < HEADER_LEN then Torn
    else if rest[4..8] != c.check(rest[..4]) then Damaged
    else
      var end := HEADER_LEN + FromBe32(rest[..4]);
      if |rest| < end then Torn
      else
        match c.dec(rest[HEADER_LEN..end])
        case None => Damaged
        case Some(v) => Whole(v, at + end)
  }

  lemma EncodedShape<T(!new)>(c: Codec<T>, v: T)
    requires Good(c) && Fits(c, v)
    ensures
      var b := Encoded(c, v);
      && |b| == HEADER_LEN + |c.enc(v)|
      && b[..4] == Be32(|c.enc(v)|) && b[4..8] == c.check(b[..4]) && b[8..] == c.enc(v)
      && FromBe32(b[..4]) == |c.enc(v)|
  {
    var len := Be32(|c.enc(v)|);
    BeReadsBack(|c.enc(v)|);
    assert |c.check(len)| == 4;
    assert Encoded(c, v)[..4] == len;
  }

  /** A whole frame at an offset reads back as what was encoded. */
  lemma WholeReads<T(!new)>(c: Codec<T>, bytes: seq<byte>, at: nat, v: T)
    requires Good(c) && Fits(c, v)
    requires at <= |bytes| && Encoded(c, v) <= bytes[at..]
    ensures NextAt(c, bytes, at) == Whole(v, at + |Encoded(c, v)|)
  {
    EncodedShape(c, v);
    var rest, b := bytes[at..], Encoded(c, v);
    assert rest[..4] == b[..4] && rest[4..8] == b[4..8];
    assert rest[HEADER_LEN..|b|] == b[8..];
  }

  /** A frame cut short anywhere reads as torn, never as damage. */
  lemma CutReadsTorn<T(!new)>(c: Codec<T>, bytes: seq<byte>, at: nat, v: T)
    requires Good(c) && Fits(c, v)
    requires at < |bytes| && bytes[at..] < Encoded(c, v)
    ensures NextAt(c, bytes, at) == Torn
  {
    EncodedShape(c, v);
    var rest, b := bytes[at..], Encoded(c, v);
    if |rest| >= HEADER_LEN {
      assert rest[..4] == b[..4] && rest[4..8] == b[4..8];
    }
  }

  /** What reads as a whole frame is that value's encoding, byte for byte. */
  lemma WholeIsEncoded<T(!new)>(c: Codec<T>, bytes: seq<byte>, at: nat)
    requires Good(c) && at <= |bytes| && NextAt(c, bytes, at).Whole?
    ensures
      var n := NextAt(c, bytes, at);
      Fits(c, n.value) && bytes[at..n.end] == Encoded(c, n.value)
  {
    var n, rest := NextAt(c, bytes, at), bytes[at..];
    var len := rest[..4];
    BeWritesBack(len);
    assert c.enc(n.value) == rest[HEADER_LEN..n.end - at];
    assert bytes[at..n.end] == rest[..n.end - at];
    assert rest[..n.end - at] == len + rest[4..8] + rest[HEADER_LEN..n.end - at];
  }

  // ------------------------------------------------------------------ a whole file

  predicate AllFit<T>(c: Codec<T>, vs: seq<T>) {
    forall i :: 0 <= i < |vs| ==> Fits(c, vs[i])
  }

  function EncodedAll<T>(c: Codec<T>, vs: seq<T>): seq<byte>
    requires AllFit(c, vs)
  {
    if |vs| == 0 then [] else EncodedAll(c, vs[..|vs| - 1]) + Encoded(c, vs[|vs| - 1])
  }

  /** The values with the offset each begins at. */
  function Placed<T>(c: Codec<T>, vs: seq<T>): seq<(nat, T)>
    requires AllFit(c, vs)
  {
    if |vs| == 0 then []
    else Placed(c, vs[..|vs| - 1]) + [(|EncodedAll(c, vs[..|vs| - 1])|, vs[|vs| - 1])]
  }

  datatype Parsed<T> =
    | Parsed(frames: seq<(nat, T)>, end: nat, cut: Option<nat>)
    | Corrupt(offset: nat)

  function ParsedFrom<T>(c: Codec<T>, bytes: seq<byte>, at: nat, frames: seq<(nat, T)>): Parsed<T>
    requires at <= |bytes|
    decreases |bytes| - at
  {
    match NextAt(c, bytes, at)
    case End => Parsed(frames, at, None)
    case Torn => Parsed(frames, at, Some(at))
    case Whole(v, end) => ParsedFrom(c, bytes, end, frames + [(at, v)])
    case Damaged => Corrupt(at)
  }

  method Parse<T>(c: Codec<T>, bytes: seq<byte>) returns (r: Parsed<T>)
    ensures r == ParsedFrom(c, bytes, 0, [])
  {
    var frames: seq<(nat, T)>, at := [], 0;
    while true
      invariant at <= |bytes|
      invariant ParsedFrom(c, bytes, 0, []) == ParsedFrom(c, bytes, at, frames)
      decreases |bytes| - at
    {
      match NextAt(c, bytes, at) {
        case End => return Parsed(frames, at, None);
        case Torn => return Parsed(frames, at, Some(at));
        case Whole(v, end) =>
          frames := frames + [(at, v)];
          at := end;
        case Damaged => return Corrupt(at);
      }
    }
  }

  lemma {:induction false} EncodedAppends<T>(c: Codec<T>, vs: seq<T>, k: nat)
    requires AllFit(c, vs) && k <= |vs|
    ensures AllFit(c, vs[..k]) && EncodedAll(c, vs[..k]) <= EncodedAll(c, vs)
  {
    if k == |vs| {
      assert vs[..k] == vs;
    } else {
      var init := vs[..|vs| - 1];
      EncodedAppends(c, init, k);
      assert init[..k] == vs[..k];
    }
  }

  /** While the bytes begin with whole frames, the parser takes them one after another. */
  lemma {:induction false} ParserTakes<T(!new)>(c: Codec<T>, bytes: seq<byte>, vs: seq<T>)
    requires Good(c) && AllFit(c, vs) && EncodedAll(c, vs) <= bytes
    ensures ParsedFrom(c, bytes, 0, []) == ParsedFrom(c, bytes, |EncodedAll(c, vs)|, Placed(c, vs))
  {
    hide Encoded, NextAt, Good;
    if |vs| > 0 {
      var init, v := vs[..|vs| - 1], vs[|vs| - 1];
      var before := EncodedAll(c, init);
      ParserTakes(c, bytes, init);
      assert bytes[|before|..][..|Encoded(c, v)|] == Encoded(c, v);
      WholeReads(c, bytes, |before|, v);
    }
  }

  /** How many of the frames lie wholly within the first `n` bytes. */
  function WholeWithin<T>(c: Codec<T>, vs: seq<T>, n: nat): (k: nat)
    requires AllFit(c, vs)
    ensures k <= |vs| && |EncodedAll(c, vs[..k])| <= n
    ensures k < |vs| ==> |EncodedAll(c, vs[..k + 1])| > n
    decreases |vs|
  {
    if |EncodedAll(c, vs)| <= n then assert vs[..|vs|] == vs; |vs|
    else
      var k := WholeWithin(c, vs[..|vs| - 1], n);
      assert vs[..|vs| - 1][..k] == vs[..k];
      assert k < |vs| - 1 ==> vs[..|vs| - 1][..k + 1] == vs[..k + 1];
      assert k == |vs| - 1 ==> vs[..k + 1] == vs;
      k
  }

  /**
   Every byte prefix of every log parses: exactly the frames wholly inside it, the cut at
   the first incomplete one, none at a boundary, and never corruption.
   */
  lemma PrefixParses<T(!new)>(c: Codec<T>, vs: seq<T>, n: nat)
    requires Good(c) && AllFit(c, vs) && n <= |EncodedAll(c, vs)|
    ensures
      var k := WholeWithin(c, vs, n);
      var end := |EncodedAll(c, vs[..k])|;
      ParsedFrom(c, EncodedAll(c, vs)[..n], 0, [])
      == Parsed(Placed(c, vs[..k]), end, if n == end then None else Some(end))
  {
    hide Encoded, NextAt, Good;
    var k, all := WholeWithin(c, vs, n), EncodedAll(c, vs);
    var bytes, head := all[..n], vs[..k];
    assert k == |vs| ==> head == vs;
    EncodedAppends(c, vs, k);
    ParserTakes(c, bytes, head);
    var end := |EncodedAll(c, head)|;
    if n == end {
      EndReads(c, bytes);
    } else {
      EncodedAppends(c, vs, k + 1);
      assert vs[..k + 1][..k] == head;
      assert bytes[end..] == EncodedAll(c, vs[..k + 1])[end..n];
      assert bytes[end..] == Encoded(c, vs[k])[..n - end];
      CutReadsTorn(c, bytes, end, vs[k]);
    }
  }

  lemma EndReads<T>(c: Codec<T>, bytes: seq<byte>)
    ensures NextAt(c, bytes, |bytes|) == End
  {
  }

  function Values<T>(frames: seq<(nat, T)>): seq<T> {
    seq(|frames|, i requires 0 <= i < |frames| => frames[i].1)
  }

  lemma {:induction false} PlacedValues<T>(c: Codec<T>, vs: seq<T>)
    requires AllFit(c, vs)
    ensures Values(Placed(c, vs)) == vs
  {
    if |vs| > 0 {
      var init := vs[..|vs| - 1];
      PlacedValues(c, init);
      assert Values(Placed(c, vs)) == Values(Placed(c, init)) + [vs[|vs| - 1]];
    }
  }

  /** The other way round: whatever parses is, up to where it ends, the encoding of what
      it parsed to. Two files with the same frames are the same bytes. */
  lemma {:induction false} ParsedIsEncoded<T(!new)>(c: Codec<T>, bytes: seq<byte>, at: nat, vs: seq<T>)
    requires Good(c) && at <= |bytes| && AllFit(c, vs) && bytes[..at] == EncodedAll(c, vs)
    requires ParsedFrom(c, bytes, at, Placed(c, vs)).Parsed?
    ensures
      var p := ParsedFrom(c, bytes, at, Placed(c, vs));
      && p.end <= |bytes| && AllFit(c, Values(p.frames))
      && p.frames == Placed(c, Values(p.frames))
      && bytes[..p.end] == EncodedAll(c, Values(p.frames))
      && (p.cut.None? <==> p.end == |bytes|)
    decreases |bytes| - at
  {
    hide Encoded, Good;
    var n := NextAt(c, bytes, at);
    if n.Whole? {
      WholeIsEncoded(c, bytes, at);
      var more := vs + [n.value];
      assert more[..|vs|] == vs;
      assert bytes[..n.end] == bytes[..at] + bytes[at..n.end];
      ParsedIsEncoded(c, bytes, n.end, more);
    } else {
      PlacedValues(c, vs);
    }
  }
}

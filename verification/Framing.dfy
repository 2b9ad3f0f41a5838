/** Splitting the ingest byte stream at its blank-line delimiter. */
module Framing {
  import opened Wrappers

  newtype byte = x: int | 0 <= x < 256

  const CR: byte := 13
  const LF: byte := 10
  const DELIMITER: seq<byte> := [CR, LF, CR, LF]

  predicate DelimiterAt(b: seq<byte>, i: nat) {
    i + 4 <= |b| && b[i] == CR && b[i + 1] == LF && b[i + 2] == CR && b[i + 3] == LF
  }

  ghost predicate DelimiterFree(b: seq<byte>) {
    forall i: nat :: !DelimiterAt(b, i)
  }

  /** The start of the first four-byte window equal to the delimiter. */
  function FirstDelimiter(b: seq<byte>): (r: Option<nat>)
    ensures r.None? <==> DelimiterFree(b)
    ensures r.Some? ==> DelimiterAt(b, r.value) && forall j: nat :: j < r.value ==> !DelimiterAt(b, j)
  {
    FirstDelimiterFrom(b, 0)
  }

  function FirstDelimiterFrom(b: seq<byte>, i: nat): (r: Option<nat>)
    requires i <= |b|
    requires forall j: nat :: j < i ==> !DelimiterAt(b, j)
    ensures r.None? <==> DelimiterFree(b)
    ensures r.Some? ==> DelimiterAt(b, r.value) && forall j: nat :: j < r.value ==> !DelimiterAt(b, j)
    decreases |b| - i
  {
    if DelimiterAt(b, i) then Some(i) else if i == |b| then None else FirstDelimiterFrom(b, i + 1)
  }

  datatype Frames = Frames(texts: seq<seq<byte>>, rest: seq<byte>)

  function SplitFrames(b: seq<byte>): Frames
    decreases |b|
  {
    match FirstDelimiter(b)
    case None => Frames([], b)
    case Some(i) =>
      var f := SplitFrames(b[i + 4..]);
      Frames([b[..i]] + f.texts, f.rest)
  }

  function JoinFrames(texts: seq<seq<byte>>): seq<byte> {
    if texts == [] then [] else texts[0] + DELIMITER + JoinFrames(texts[1..])
  }

  /** Texts the delimiter can follow without a delimiter appearing early: the
      delimiter's only proper border is CR LF. */
  ghost predicate Clean(t: seq<byte>) {
    DelimiterFree(t) && !(|t| >= 2 && t[|t| - 2] == CR && t[|t| - 1] == LF)
  }

  lemma FirstDelimiterOfFramed(t: seq<byte>, rest: seq<byte>)
    ensures FirstDelimiter(t + DELIMITER + rest) == Some(|t|) <==> Clean(t)
  {
    var b := t + DELIMITER + rest;
    assert DelimiterAt(b, |t|);
    if Clean(t) {
      forall j: nat | j < |t| ensures !DelimiterAt(b, j) {
        assert !DelimiterAt(t, j);
      }
    } else if !DelimiterFree(t) {
      var j: nat :| DelimiterAt(t, j);
      assert DelimiterAt(b, j);
    } else {
      assert DelimiterAt(b, |t| - 2);
    }
  }

  /** Framing and splitting are inverse exactly on clean texts and a delimiter-free leftover. */
  lemma {:induction false} FramingRoundTrip(texts: seq<seq<byte>>, rest: seq<byte>)
    ensures SplitFrames(JoinFrames(texts) + rest) == Frames(texts, rest)
            <==> (forall t <- texts :: Clean(t)) && DelimiterFree(rest)
  {
    var b := JoinFrames(texts) + rest;
    if texts == [] {
      assert b == rest;
    } else {
      var t := texts[0];
      var tail := JoinFrames(texts[1..]) + rest;
      assert b == t + DELIMITER + tail;
      FirstDelimiterOfFramed(t, tail);
      assert texts == [t] + texts[1..];
      if Clean(t) {
        assert b[..|t|] == t && b[|t| + 4..] == tail;
        FramingRoundTrip(texts[1..], rest);
        var f := SplitFrames(tail);
        assert ([t] + f.texts)[1..] == f.texts;
      } else {
        var first := FirstDelimiter(b);
        assert DelimiterAt(b, |t|);
        assert |SplitFrames(b).texts[0]| == first.value != |t|;
      }
    }
  }

  lemma CutAtDelimiter(b: seq<byte>, i: nat)
    requires DelimiterAt(b, i)
    ensures b == b[..i] + DELIMITER + b[i + 4..]
  {
    assert b[i..i + 4] == DELIMITER;
  }

  lemma Regroup<T>(a: seq<T>, b: seq<T>, c: seq<T>)
    ensures (a + b) + c == a + (b + c)
  {}

  /** Splitting loses nothing, and every text costs at least the delimiter. */
  lemma {:induction false} SplitFramesLossless(b: seq<byte>)
    ensures JoinFrames(SplitFrames(b).texts) + SplitFrames(b).rest == b
    ensures |SplitFrames(b).rest| + 4 * |SplitFrames(b).texts| <= |b|
    decreases |b|
  {
    match FirstDelimiter(b)
    case None =>
    case Some(i) =>
      var t, tail := b[..i], b[i + 4..];
      SplitFramesLossless(tail);
      var f := SplitFrames(tail);
      CutAtDelimiter(b, i);
      JoinFramesCons(t, f.texts);
      Regroup(t + DELIMITER, JoinFrames(f.texts), f.rest);
  }

  /** Splitting leaves nothing splittable: the texts are clean and the leftover holds no delimiter. */
  lemma {:induction false} SplitFramesClean(b: seq<byte>)
    ensures forall t <- SplitFrames(b).texts :: Clean(t)
    ensures DelimiterFree(SplitFrames(b).rest)
    decreases |b|
  {
    match FirstDelimiter(b)
    case None =>
    case Some(i) =>
      var t, tail := b[..i], b[i + 4..];
      SplitFramesClean(tail);
      CutAtDelimiter(b, i);
      FirstDelimiterOfFramed(t, tail);
  }

  lemma JoinFramesCons(t: seq<byte>, texts: seq<seq<byte>>)
    ensures JoinFrames([t] + texts) == t + DELIMITER + JoinFrames(texts)
  {
    assert ([t] + texts)[1..] == texts;
  }

  /** There is only one way to read a stream as clean frames and a delimiter-free leftover. */
  lemma FramesUnique(b: seq<byte>, f: Frames)
    requires JoinFrames(f.texts) + f.rest == b
    requires (forall t <- f.texts :: Clean(t)) && DelimiterFree(f.rest)
    ensures SplitFrames(b) == f
  {
    FramingRoundTrip(f.texts, f.rest);
  }

  /** Bytes that arrive later do not move the first delimiter. */
  lemma FirstDelimiterStable(a: seq<byte>, b: seq<byte>)
    requires FirstDelimiter(a).Some?
    ensures FirstDelimiter(a + b) == FirstDelimiter(a)
  {
    var i := FirstDelimiter(a).value;
    forall j: nat | j < i ensures !DelimiterAt(a + b, j) {
      assert !DelimiterAt(a, j);
    }
    assert DelimiterAt(a + b, i);
  }
}

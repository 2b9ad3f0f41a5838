/**
  Incremental decoding of a framed byte stream: a decoder is called on a growing
  buffer and takes one frame off it at a time. What a frame means is a parameter.
 */
module StreamDecoder {
  import opened Wrappers
  import opened Framing

  /** What becomes of one frame. `Crash` aborts the decoding task. */
  datatype Parsed<+C> = Command(command: C) | Unsupported(text: string) | Crash

  type Reader<C> = seq<byte> -> Parsed<C>

  /** One call of the decoder: what it returns (None: more bytes needed) and what it leaves in the buffer. */
  function DecodeStep<C>(read: Reader<C>, b: seq<byte>): (r: (Option<Parsed<C>>, seq<byte>))
    ensures r.0.Some? ==> |r.1| + 4 <= |b| && r.1 == b[|b| - |r.1|..]
    ensures r.0.None? ==> r.1 == b
  {
    match FirstDelimiter(b)
    case None => (None, b)
    case Some(i) => (Some(read(b[..i])), b[i + 4..])
  }

  datatype Ending = Open | Failed(text: string) | Panicked

  /** The commands decoded so far, whether decoding can continue, and the bytes not yet consumed. */
  datatype Decoded<+C> = Decoded(commands: seq<C>, ending: Ending, unread: seq<byte>)

  function After<C>(commands: seq<C>, d: Decoded<C>): Decoded<C> {
    Decoded(commands + d.commands, d.ending, d.unread)
  }

  lemma AfterNothing<C>(d: Decoded<C>)
    ensures After([], d) == d
  {
    assert [] + d.commands == d.commands;
  }

  lemma AfterAfter<C>(a: seq<C>, b: seq<C>, d: Decoded<C>)
    ensures After(a, After(b, d)) == After(a + b, d)
  {
    assert a + (b + d.commands) == (a + b) + d.commands;
  }

  /** Calls the decoder until it asks for more bytes or fails. */
  function Drain<C>(read: Reader<C>, b: seq<byte>): Decoded<C>
    decreases |b|
  {
    match DecodeStep(read, b)
    case (None, rest) => Decoded([], Open, rest)
    case (Some(Command(c)), rest) => After([c], Drain(read, rest))
    case (Some(Unsupported(text)), rest) => Decoded([], Failed(text), rest)
    case (Some(Crash), rest) => Decoded([], Panicked, rest)
  }

  /** A chunk arrives: it is appended to the buffer, which is drained again unless decoding has already failed. */
  function Arrive<C>(read: Reader<C>, d: Decoded<C>, chunk: seq<byte>): Decoded<C> {
    if d.ending.Open? then After(d.commands, Drain(read, d.unread + chunk))
    else d.(unread := d.unread + chunk)
  }

  function ArriveAll<C>(read: Reader<C>, d: Decoded<C>, chunks: seq<seq<byte>>): Decoded<C>
    decreases |chunks|
  {
    if chunks == [] then d else ArriveAll(read, Arrive(read, d, chunks[0]), chunks[1..])
  }

  function Flatten(chunks: seq<seq<byte>>): seq<byte> {
    if chunks == [] then [] else chunks[0] + Flatten(chunks[1..])
  }

  /** Bytes that arrive later change neither the frame at the front nor what is made of it. */
  lemma DecodeStepStable<C>(read: Reader<C>, a: seq<byte>, b: seq<byte>)
    requires DecodeStep(read, a).0.Some?
    ensures DecodeStep(read, a + b) == (DecodeStep(read, a).0, DecodeStep(read, a).1 + b)
  {
    FirstDelimiterStable(a, b);
    var i := FirstDelimiter(a).value;
    assert (a + b)[..i] == a[..i];
    assert (a + b)[i + 4..] == a[i + 4..] + b;
  }

  /** Draining early and continuing later is draining everything at once. */
  lemma {:induction false} DrainAppend<C>(read: Reader<C>, a: seq<byte>, b: seq<byte>)
    ensures Drain(read, a + b) == Arrive(read, Drain(read, a), b)
    decreases |a|
  {
    match DecodeStep(read, a)
    case (None, _) =>
      AfterNothing(Drain(read, a + b));
    case (Some(Command(c)), rest) =>
      DecodeStepStable(read, a, b);
      DrainAppend(read, rest, b);
      var d := Drain(read, rest);
      AfterAfter([c], d.commands, Drain(read, d.unread + b));
    case (Some(_), _) =>
      DecodeStepStable(read, a, b);
  }

  /** However the stream is cut into chunks, the commands, the first failure and
      the unconsumed bytes are those of decoding the whole stream at once. */
  lemma {:induction false} ChunkIndependence<C>(read: Reader<C>, before: seq<byte>, chunks: seq<seq<byte>>)
    ensures ArriveAll(read, Drain(read, before), chunks) == Drain(read, before + Flatten(chunks))
    decreases |chunks|
  {
    if chunks == [] {
      assert before + Flatten(chunks) == before;
    } else {
      DrainAppend(read, before, chunks[0]);
      ChunkIndependence(read, before + chunks[0], chunks[1..]);
      Regroup(before, chunks[0], Flatten(chunks[1..]));
    }
  }

  /** Reading a stream that was split into frames beforehand: up to the first frame
      that is not a command, whose successors stay unread. */
  function ReadFrames<C>(read: Reader<C>, f: Frames): Decoded<C>
    decreases |f.texts|
  {
    if f.texts == [] then Decoded([], Open, f.rest)
    else
      var later := Frames(f.texts[1..], f.rest);
      match read(f.texts[0])
      case Command(c) => After([c], ReadFrames(read, later))
      case Unsupported(text) => Decoded([], Failed(text), JoinFrames(later.texts) + later.rest)
      case Crash => Decoded([], Panicked, JoinFrames(later.texts) + later.rest)
  }

  /** Decoding while splitting is splitting everything first and then reading the frames. */
  lemma {:induction false} DrainReadsFrames<C>(read: Reader<C>, b: seq<byte>)
    ensures Drain(read, b) == ReadFrames(read, SplitFrames(b))
    decreases |b|
  {
    match FirstDelimiter(b)
    case None =>
    case Some(i) =>
      var later := SplitFrames(b[i + 4..]);
      DrainReadsFrames(read, b[i + 4..]);
      SplitFramesLossless(b[i + 4..]);
      FramesTail(b[..i], later);
  }

  lemma FramesTail(text: seq<byte>, later: Frames)
    ensures ([text] + later.texts)[0] == text && ([text] + later.texts)[1..] == later.texts
  {}
}

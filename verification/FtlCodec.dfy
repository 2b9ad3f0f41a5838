/**
  The FTL codec: framed text is classified into commands by ordered substring
  tests, and the stream is decoded one command at a time from a growing buffer.

  The conversion of frame bytes to text is a parameter `utf8` throughout: the
  results hold for every such conversion.
 */
module FtlCodec {
  import opened Wrappers
  import opened Framing
  import opened StreamDecoder
  import opened Text

  type Utf8 = seq<byte> -> string

  datatype FtlCommand =
    | HMAC
    | Connect(data: map<string, string>)
    | Ping
    | Dot
    | Attribute(data: map<string, string>)
    | Disconnect

  /** The command a frame's text stands for. A CONNECT without a third field, or with
      an empty one, makes the decoder index out of range or remove from an empty string. */
  function Classify(command: string): Parsed<FtlCommand> {
    if Contains(command, "HMAC") then
      Command(HMAC)
    else if Contains(command, "DISCONNECT") then
      Command(Disconnect)
    else if Contains(command, "CONNECT") then
      ClassifyConnect(Split(command, ' '))
    else if ':' in command then
      var parts := Split(command, ':');
      Command(Attribute(map["key" := parts[0], "value" := Trim(parts[1])]))
    else if '.' in command && |command| == 1 then
      Command(Dot)
    else if Contains(command, "PING") then
      Command(Ping)
    else
      Unsupported(command)
  }

  function ClassifyConnect(parts: seq<string>): Parsed<FtlCommand> {
    if |parts| < 3 || parts[2] == "" then Crash
    else Command(Connect(map["channel_id" := parts[1], "stream_key" := parts[2][1..]]))
  }

  /** How the codec reads one frame. */
  function Frame(utf8: Utf8): Reader<FtlCommand> {
    (text: seq<byte>) => Classify(utf8(text))
  }

  /** A decoded CONNECT or attribute always carries the two entries the connection looks up. */
  ghost predicate WellFormed(c: FtlCommand) {
    match c
    case Connect(data) => "stream_key" in data && "channel_id" in data
    case Attribute(data) => "key" in data && "value" in data
    case _ => true
  }

  lemma ClassifyWellFormed(text: string)
    ensures Classify(text).Command? ==> WellFormed(Classify(text).command)
  {}

  lemma {:induction false} DrainWellFormed(utf8: Utf8, b: seq<byte>)
    ensures forall c <- Drain(Frame(utf8), b).commands :: WellFormed(c)
    decreases |b|
  {
    match FirstDelimiter(b)
    case None =>
    case Some(i) =>
      ClassifyWellFormed(utf8(b[..i]));
      DrainWellFormed(utf8, b[i + 4..]);
  }

  /** The growable byte buffer the frame reader appends to and the codec consumes. */
  class BytesMut {
    var data: seq<byte>

    constructor ()
      ensures data == []
    {
      data := [];
    }

    method Advance(n: nat)
      requires n <= |data|
      modifies this
      ensures data == old(data)[n..]
    {
      data := data[n..];
    }

    method Put(bytes: seq<byte>)
      modifies this
      ensures data == old(data) + bytes
    {
      data := data + bytes;
    }
  }

  class FtlCodec {
    var commandBuffer: seq<byte>

    constructor ()
      ensures commandBuffer == []
    {
      commandBuffer := [];
    }

    method Reset()
      modifies this
      ensures commandBuffer == []
    {
      commandBuffer := [];
    }

    /** Takes at most one command off the front of the buffer. */
    method Decode(utf8: Utf8, buf: BytesMut) returns (r: Option<Parsed<FtlCommand>>)
      modifies this, buf
      ensures (r, buf.data) == DecodeStep(Frame(utf8), old(buf.data))
      ensures commandBuffer == if r.None? || r.value.Crash? then old(commandBuffer) else []
    {
      var index := FirstDelimiter(buf.data);
      if index.None? {
        return None;
      }
      var command := utf8(buf.data[..index.value]);
      buf.Advance(index.value + 4);
      if Contains(command, "HMAC") {
        Reset();
        return Some(Command(HMAC));
      } else if Contains(command, "DISCONNECT") {
        Reset();
        return Some(Command(Disconnect));
      } else if Contains(command, "CONNECT") {
        var parts := Split(command, ' ');
        if |parts| < 3 || parts[2] == "" {
          return Some(Crash);
        }
        var data: map<string, string> := map[];
        data := data["channel_id" := parts[1]];
        data := data["stream_key" := parts[2][1..]];
        Reset();
        return Some(Command(Connect(data)));
      } else if ':' in command {
        var parts := Split(command, ':');
        var data: map<string, string> := map[];
        data := data["key" := parts[0]];
        data := data["value" := Trim(parts[1])];
        Reset();
        return Some(Command(Attribute(data)));
      } else if '.' in command && |command| == 1 {
        Reset();
        return Some(Command(Dot));
      } else if Contains(command, "PING") {
        Reset();
        return Some(Command(Ping));
      } else {
        Reset();
        return Some(Unsupported(command));
      }
    }
  }

  /** The read side of one connection: chunks go into the buffer, and the codec
      is called until it needs more bytes or fails. */
  class FrameReader {
    const codec: FtlCodec
    const buf: BytesMut
    const utf8: Utf8
    var ending: Ending
    var commands: seq<FtlCommand>

    constructor (utf8: Utf8)
      ensures fresh(codec) && fresh(buf) && this.utf8 == utf8
      ensures View() == Drain(Frame(utf8), [])
    {
      this.utf8 := utf8;
      codec := new FtlCodec();
      buf := new BytesMut();
      ending := Open;
      commands := [];
    }

    ghost function View(): Decoded<FtlCommand>
      reads this, buf
    {
      Decoded(commands, ending, buf.data)
    }

    method Receive(chunk: seq<byte>)
      modifies this, buf, codec
      ensures View() == Arrive(Frame(utf8), old(View()), chunk)
    {
      buf.Put(chunk);
      ghost var d := Drain(Frame(utf8), buf.data);
      var more := ending.Open?;
      assert commands + d.commands == (After(commands, d)).commands;
      while more
        invariant more ==> ending.Open? && After(commands, Drain(Frame(utf8), buf.data)) == After(old(commands), d)
        invariant !more ==> View() == Arrive(Frame(utf8), old(View()), chunk)
        decreases more, |buf.data|
      {
        var r := codec.Decode(utf8, buf);
        match r
        case None =>
          more := false;
        case Some(Command(c)) =>
          ghost var e := Drain(Frame(utf8), buf.data);
          assert commands + ([c] + e.commands) == (commands + [c]) + e.commands;
          commands := commands + [c];
        case Some(Unsupported(text)) =>
          ending, more := Failed(text), false;
        case Some(Crash) =>
          ending, more := Panicked, false;
      }
    }
  }
}

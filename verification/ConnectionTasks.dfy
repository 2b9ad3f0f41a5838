/** The code the two tasks run, over a socket that may fail at any character. */
module ConnectionTasks {
  import opened Wrappers
  import opened ConnectionStates
  import opened Framing
  import opened FtlCodec
  import opened Interpreter
  import opened LockStep
  import Negotiation
  import opened Numerals
  import opened Text
  import opened Transcript

  /** The write side of the socket: it takes `room` more characters and then fails. */
  class Socket {
    var written: string
    var room: nat

    constructor (room: nat)
      ensures written == "" && this.room == room
    {
      this.written, this.room := "", room;
    }

    method Send(item: string) returns (ok: bool)
      modifies this
      ensures ok <==> |item| <= old(room)
      ensures written == old(written) + (if ok then item else item[..old(room)])
      ensures room == old(room) - (if ok then |item| else old(room))
    {
      ok := |item| <= room;
      if ok {
        written, room := written + item, room - |item|;
      } else {
        written, room := written + item[..room], 0;
      }
    }
  }

  /** Writes the parts of a reply in list order: the list is reversed and then popped from its end. */
  method HandleFrameCommand(command: Option<seq<string>>, socket: Socket) returns (ok: bool)
    modifies socket
    ensures command.None? ==> !ok && socket.written == old(socket.written) && socket.room == old(socket.room)
    ensures command.Some? ==>
      var text := Concat(command.value);
      && (ok <==> |text| <= old(socket.room))
      && socket.written == old(socket.written) + (if ok then text else text[..old(socket.room)])
  {
    if command.None? {
      return false;
    }
    var d := Reverse(command.value);
    ReverseTwice(command.value);
    ghost var sent := "";
    while d != []
      invariant Concat(command.value) == sent + Concat(Reverse(d))
      invariant socket.written == old(socket.written) + sent
      invariant socket.room == old(socket.room) - |sent|
      decreases |d|
    {
      var item := Last(d);
      PopOrder(sent, d);
      d := Front(d);
      var accepted := socket.Send(item);
      if !accepted {
        CutInside(sent, item, Concat(Reverse(d)), old(socket.room) - |sent|);
        return false;
      }
      sent := sent + item;
    }
    return true;
  }

  lemma CutInside(a: string, b: string, c: string, n: nat)
    requires n <= |b|
    ensures (a + b + c)[..|a| + n] == a + b[..n]
  {}

  const SAMPLES: nat := 128

  /** As many random bytes as a payload takes, drawn below 255. */
  predicate Drawn(samples: seq<byte>) {
    |samples| == SAMPLES && forall i :: 0 <= i < |samples| ==> samples[i] < 255
  }

  /** What the outside decides, before it becomes text: the bytes drawn and the port answered for the k-th command. */
  datatype Outside = Outside(samples: nat -> seq<byte>, port: nat -> Option<nat>)

  ghost predicate FairDraws(o: Outside) {
    forall k :: Drawn(o.samples(k))
  }

  function WorldOf(o: Outside): World {
    World((k: nat) => Hex(o.samples(k)), o.port)
  }

  /** Every payload is 256 hexadecimal digits, and spells the bytes that were drawn for it. */
  lemma DrawnPayloads(o: Outside)
    requires FairDraws(o)
    ensures HexWorld(WorldOf(o))
    ensures forall k :: |WorldOf(o).hmac(k)| == 256 && ParseHex(WorldOf(o).hmac(k)) == o.samples(k)
  {
    forall k ensures |WorldOf(o).hmac(k)| == 256 && ParseHex(WorldOf(o).hmac(k)) == o.samples(k) {
      assert Drawn(o.samples(k));
      HexRoundTrip(o.samples(k));
    }
  }

  /** Draws 128 random bytes and hex-encodes them. */
  method GenerateHmac(samples: seq<byte>) returns (payload: string)
    requires Drawn(samples)
    ensures payload == Hex(samples) && |payload| == 256 && ParseHex(payload) == samples
  {
    var bytes: seq<byte> := [];
    for i := 0 to SAMPLES
      invariant bytes == samples[..i]
    {
      bytes := bytes + [samples[i]];
    }
    payload := Hex(bytes);
    HexRoundTrip(samples);
    assert bytes == samples;
  }

  /** Whatever was written before, the interpreter answers the k-th command with this state, reply and verdict. */
  ghost predicate Serves(w: World, k: nat, before: ConnectionState, c: FtlCommand,
                         after: ConnectionState, reply: seq<string>, verdict: Verdict) {
    forall out: string ::
      Interpreter.Serve(w, k, Session(before, out, Serving), c) == Session(after, out + Concat(reply), verdict)
  }

  lemma SessionGoesOn(w: World, cs: seq<FtlCommand>, before: ConnectionState, replies: seq<seq<string>>,
                      c: FtlCommand, after: ConnectionState, reply: seq<string>, verdict: Verdict)
    requires Interpret(w, cs) == Session(before, Transcribe(replies), Serving)
    requires Serves(w, |cs|, before, c, after, reply, verdict)
    ensures Interpret(w, cs + [c]) == Session(after, Transcribe(replies + [reply]), verdict)
  {
    InterpretSnoc(w, cs, c);
    TranscribeSnoc(replies, reply);
  }

  class CommandTask {
    var state: ConnectionState
    var leased: seq<nat>
    var freed: seq<nat>
    var notices: seq<string>

    constructor ()
      ensures state == NEW && leased == [] && freed == [] && notices == []
    {
      state, leased, freed, notices := NEW, [], [], [];
    }

    ghost predicate Valid()
      reads this
    {
      leased == (if state.rtpPort.Some? then [state.rtpPort.value] else []) && freed == [] && notices == []
    }

    method SetAttribute(key: string, value: string) returns (ok: bool)
      modifies this`state
      ensures ok <==> Interpreter.SetAttribute(old(state), key, value).Some?
      ensures state == if ok then Interpreter.SetAttribute(old(state), key, value).value else old(state)
    {
      match key {
        case "ProtocolVersion" => state := state.(protocolVersion := Some(value));
        case "VendorName" => state := state.(vendorName := Some(value));
        case "VendorVersion" => state := state.(vendorVersion := Some(value));
        case "Video" =>
          if value == "true" { state := state.(video := true); }
          else if value == "false" { state := state.(video := false); }
          else { return false; }
        case "VideoCodec" => state := state.(videoCodec := Some(value));
        case "VideoHeight" => state := state.(videoHeight := Some(value));
        case "VideoWidth" => state := state.(videoWidth := Some(value));
        case "VideoPayloadType" => state := state.(videoPayloadType := Some(value));
        case "VideoIngestSSRC" => state := state.(videoIngestSsrc := Some(value));
        case "Audio" =>
          if value == "true" { state := state.(audio := true); }
          else if value == "false" { state := state.(audio := false); }
          else { return false; }
        case "AudioCodec" => state := state.(audioCodec := Some(value));
        case "AudioPayloadType" => state := state.(audioPayloadType := Some(value));
        case "AudioIngestSSRC" => state := state.(audioIngestSsrc := Some(value));
        case _ =>
      }
      return true;
    }

    method HandleCommand(c: FtlCommand, samples: seq<byte>) returns (reply: Option<seq<string>>)
      requires Drawn(samples)
      modifies this`state
      ensures (state, reply) == Interpreter.HandleCommand(c, Hex(samples), old(state))
    {
      reply := None;
      match c {
        case HMAC =>
          var payload := GenerateHmac(samples);
          state := state.(hmacPayload := Some(payload));
          reply := Some(["200 ", state.GetPayload(), "\n"]);
        case Connect(data) =>
          if "stream_key" in data && "channel_id" in data {
            state := state.(streamKey := Some(data["stream_key"]));
            reply := Some(["200\n"]);
          }
        case Attribute(data) =>
          if "key" in data && "value" in data {
            var ok := SetAttribute(data["key"], data["value"]);
            if ok {
              reply := Some([""]);
            }
          }
        case Ping =>
          reply := Some(["201\n"]);
        case _ =>
      }
    }

    /** Announces the end of the stream and frees the port, as far as there is a key and a port. */
    method Release()
      requires Valid()
      modifies this
      ensures state == old(state) && leased == old(leased) && freed == leased
      ensures notices == if state.streamKey.Some? then [state.streamKey.value] else []
    {
      if state.streamKey.Some? {
        notices := notices + [state.streamKey.value];
      }
      if state.rtpPort.Some? {
        freed := freed + [state.rtpPort.value];
      }
    }

    /** A dot asks for a port unless there is one already. */
    method Negotiate(answer: Option<nat>) returns (parts: seq<string>, verdict: Verdict)
      requires Valid()
      modifies this`state, this`leased
      ensures Valid() && !verdict.Silent? && (verdict.Returned? ==> leased == [])
      ensures forall out: string :: Interpreter.Negotiate(answer, Session(old(state), out, Serving))
                                    == Session(state, out + Concat(parts), verdict)
    {
      if state.rtpPort.None? {
        state := state.(rtpPort := AllocatePort(answer));
        if state.rtpPort.None? {
          return REFUSAL, Returned;
        }
        leased := leased + [state.rtpPort.value];
      }
      return PortReply(state.rtpPort.value), Serving;
    }

    /** Deals with one command: what to reply, and whether the session goes on. */
    method Serve(o: Outside, k: nat, c: FtlCommand) returns (reply: seq<string>, verdict: Verdict)
      requires Valid() && FairDraws(o)
      modifies this
      ensures leased == if state.rtpPort.Some? then [state.rtpPort.value] else []
      ensures freed == if verdict.Returned? then leased else []
      ensures verdict.Serving? ==> Valid()
      ensures notices == if c.Disconnect? && state.streamKey.Some? then [state.streamKey.value] else []
      ensures Serves(WorldOf(o), k, old(state), c, state, reply, verdict)
    {
      match c {
        case Disconnect =>
          Release();
          reply, verdict := [], Returned;
        case Dot =>
          reply, verdict := Negotiate(o.port(k));
        case _ =>
          HandlerKeepsPort(c, Hex(o.samples(k)), state);
          assert Drawn(o.samples(k));
          var handled := HandleCommand(c, o.samples(k));
          match handled
          case Some(parts) => reply, verdict := parts, Serving;
          case None => reply, verdict := [], Silent;
      }
      assert Concat([]) == "";
    }

    /** Serves the next command of the inbox. */
    method ServeNext(o: Outside, inbox: seq<FtlCommand>, ghost replies: seq<seq<string>>, i: nat)
      returns (reply: seq<string>, verdict: Verdict)
      requires i < |inbox| && Valid() && FairDraws(o)
      requires Interpret(WorldOf(o), inbox[..i]) == Session(state, Transcribe(replies), Serving)
      modifies this
      ensures Interpret(WorldOf(o), inbox[..i + 1]) == Session(state, Transcribe(replies + [reply]), verdict)
      ensures leased == if state.rtpPort.Some? then [state.rtpPort.value] else []
      ensures freed == if verdict.Returned? then leased else []
      ensures verdict.Serving? ==> Valid()
      ensures notices == if inbox[i].Disconnect? && state.streamKey.Some? then [state.streamKey.value] else []
    {
      assert inbox[..i + 1] == inbox[..i] + [inbox[i]];
      ghost var before := state;
      reply, verdict := Serve(o, i, inbox[i]);
      SessionGoesOn(WorldOf(o), inbox[..i], before, replies, inbox[i], state, reply, verdict);
    }

    /** The command loop, fed one command at a time, each after the reply to the one before,
        until the channel closes, the session is over or a command gets no reply. */
    method Loop(o: Outside, inbox: seq<FtlCommand>)
      returns (replies: seq<seq<string>>, verdict: Verdict, ghost taken: nat)
      requires Valid() && state == NEW && FairDraws(o)
      modifies this
      ensures taken <= |inbox| && Interpret(WorldOf(o), inbox[..taken]) == Session(state, Transcribe(replies), verdict)
      ensures verdict.Serving? ==> taken == |inbox| && Valid()
      ensures !verdict.Serving? ==> taken > 0 && Interpret(WorldOf(o), inbox[..taken - 1]).verdict.Serving?
      ensures leased == if state.rtpPort.Some? then [state.rtpPort.value] else []
      ensures freed == if verdict.Returned? then leased else []
      ensures notices == if !verdict.Serving? && inbox[taken - 1].Disconnect? && state.streamKey.Some?
                         then [state.streamKey.value] else []
    {
      replies, verdict, taken := [], Serving, 0;
      var i := 0;
      while i < |inbox|
        invariant i == taken <= |inbox| && Valid() && verdict.Serving?
        invariant Interpret(WorldOf(o), inbox[..i]) == Session(state, Transcribe(replies), Serving)
      {
        var reply;
        reply, verdict := ServeNext(o, inbox, replies, i);
        replies := replies + [reply];
        i, taken := i + 1, taken + 1;
        if !verdict.Serving? {
          return;
        }
      }
    }

    /** The whole task. When the channel closes the port is freed; a command without a reply is the last to
        come, and the channel then stays open for good. */
    method Run(o: Outside, inbox: seq<FtlCommand>) returns (replies: seq<seq<string>>, verdict: Verdict)
      requires Valid() && state == NEW && FairDraws(o)
      modifies this
      ensures Interpret(WorldOf(o), inbox) == Session(state, Transcribe(replies), verdict)
      ensures leased == if state.rtpPort.Some? then [state.rtpPort.value] else []
      ensures freed == if verdict.Silent? then [] else leased
      ensures notices == Negotiation.NoticesDue(WorldOf(o), inbox)
    {
      ghost var taken;
      replies, verdict, taken := Loop(o, inbox);
      if verdict.Serving? {
        assert inbox[..taken] == inbox;
        Negotiation.NoticeAtHangUp(WorldOf(o), inbox);
        Release();
      } else {
        Negotiation.NoticeAtEnd(WorldOf(o), inbox, taken - 1);
      }
    }
  }

  /** What the command loop replied can be cut and parsed into the replies, payloads and all. */
  lemma RepliesRead(o: Outside, inbox: seq<FtlCommand>, replies: seq<seq<string>>)
    requires FairDraws(o) && Interpret(WorldOf(o), inbox).out == Transcribe(replies)
    ensures ParseLines(Lines(Transcribe(replies))) == Loud(Answers(WorldOf(o), inbox))
  {
    DrawnPayloads(o);
    ClientReadsReplies(WorldOf(o), inbox);
  }

  /** The text of a list of replies. */
  function Transcribe(replies: seq<seq<string>>): string {
    if replies == [] then ""
    else Transcribe(replies[..|replies| - 1]) + Concat(replies[|replies| - 1])
  }

  lemma TranscribeSnoc(replies: seq<seq<string>>, reply: seq<string>)
    ensures Transcribe(replies + [reply]) == Transcribe(replies) + Concat(reply)
  {
    assert (replies + [reply])[..|replies|] == replies;
  }
}

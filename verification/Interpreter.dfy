/**
  One FTL session read sequentially: a command is handled, its reply is written
  and only then is the next command looked at.
 */
module Interpreter {
  import opened Wrappers
  import opened ConnectionStates
  import opened FtlCodec
  import opened Numerals
  import opened Text

  /** What the outside answers while the k-th command is handled: the random HMAC
      payload, and the number in the WebRTC server's reply to a port request, if any. */
  datatype World = World(hmac: nat -> string, port: nat -> Option<nat>)

  /** A port number is cast to 16 bits. */
  function AllocatePort(answer: Option<nat>): Option<nat> {
    match answer
    case None => None
    case Some(n) => Some(n % 0x1_0000)
  }

  /** A port is allocated exactly when the server answered one; the 16 bits kept differ from the number by
      a multiple of 65536, and not at all when it is the number of a port. */
  lemma AllocatedPort(answer: Option<nat>)
    ensures AllocatePort(answer).Some? <==> answer.Some?
    ensures answer.Some? ==>
      var n, port := answer.value, AllocatePort(answer).value;
      port <= 65535 && (n - port) % 65536 == 0 && (n <= 65535 ==> port == n)
  {
    if answer.Some? {
      var n := answer.value;
      assert n == n / 65536 * 65536 + n % 65536;
    }
  }

  function SetAttribute(st: ConnectionState, key: string, value: string): Option<ConnectionState> {
    if key == "ProtocolVersion" then Some(st.(protocolVersion := Some(value)))
    else if key == "VendorName" then Some(st.(vendorName := Some(value)))
    else if key == "VendorVersion" then Some(st.(vendorVersion := Some(value)))
    else if key == "Video" then
      if value == "true" then Some(st.(video := true))
      else if value == "false" then Some(st.(video := false))
      else None
    else if key == "VideoCodec" then Some(st.(videoCodec := Some(value)))
    else if key == "VideoHeight" then Some(st.(videoHeight := Some(value)))
    else if key == "VideoWidth" then Some(st.(videoWidth := Some(value)))
    else if key == "VideoPayloadType" then Some(st.(videoPayloadType := Some(value)))
    else if key == "VideoIngestSSRC" then Some(st.(videoIngestSsrc := Some(value)))
    else if key == "Audio" then
      if value == "true" then Some(st.(audio := true))
      else if value == "false" then Some(st.(audio := false))
      else None
    else if key == "AudioCodec" then Some(st.(audioCodec := Some(value)))
    else if key == "AudioPayloadType" then Some(st.(audioPayloadType := Some(value)))
    else if key == "AudioIngestSSRC" then Some(st.(audioIngestSsrc := Some(value)))
    else Some(st)
  }

  /** The new state, and the parts of the reply; no reply at all when the handler only logs. */
  function HandleCommand(c: FtlCommand, payload: string, st: ConnectionState): (ConnectionState, Option<seq<string>>) {
    match c
    case HMAC =>
      var st' := st.(hmacPayload := Some(payload));
      (st', Some(["200 ", st'.GetPayload(), "\n"]))
    case Connect(data) =>
      if "stream_key" in data && "channel_id" in data then
        (st.(streamKey := Some(data["stream_key"])), Some(["200\n"]))
      else (st, None)
    case Attribute(data) =>
      if "key" in data && "value" in data then
        match SetAttribute(st, data["key"], data["value"])
        case Some(st') => (st', Some([""]))
        case None => (st, None)
      else (st, None)
    case Ping => (st, Some(["201\n"]))
    case _ => (st, None)
  }

  function PortReply(port: nat): seq<string> {
    ["200 hi. Use UDP port " + Decimal(port) + "\n"]
  }

  const REFUSAL: seq<string> := ["500 failed to allocate port\n"]

  /** Serving: the next command will be read. Silent: the last one got no reply and
      the client is never listened to again. Returned: the session is over. */
  datatype Verdict = Serving | Silent | Returned

  datatype Session = Session(state: ConnectionState, out: string, verdict: Verdict)

  const START: Session := Session(NEW, "", Serving)

  function Negotiate(answer: Option<nat>, s: Session): Session {
    match s.state.rtpPort
    case Some(port) => s.(out := s.out + Concat(PortReply(port)))
    case None =>
      match AllocatePort(answer)
      case Some(port) => Session(s.state.(rtpPort := Some(port)), s.out + Concat(PortReply(port)), Serving)
      case None => Session(s.state, s.out + Concat(REFUSAL), Returned)
  }

  function Respond(s: Session, handled: (ConnectionState, Option<seq<string>>)): Session {
    match handled.1
    case Some(parts) => Session(handled.0, s.out + Concat(parts), Serving)
    case None => Session(handled.0, s.out, Silent)
  }

  function Serve(w: World, k: nat, s: Session, c: FtlCommand): Session {
    if !s.verdict.Serving? then s
    else match c
      case Disconnect => s.(verdict := Returned)
      case Dot => Negotiate(w.port(k), s)
      case _ => Respond(s, HandleCommand(c, w.hmac(k), s.state))
  }

  function Interpret(w: World, cs: seq<FtlCommand>): Session {
    if cs == [] then START
    else Serve(w, |cs| - 1, Interpret(w, cs[..|cs| - 1]), cs[|cs| - 1])
  }

  lemma InterpretSnoc(w: World, cs: seq<FtlCommand>, c: FtlCommand)
    ensures Interpret(w, cs + [c]) == Serve(w, |cs|, Interpret(w, cs), c)
  {
    assert (cs + [c])[..|cs|] == cs;
  }

  /** The commands the handler answers with nothing. */
  predicate Unanswered(c: FtlCommand) {
    match c
    case Connect(data) => !("stream_key" in data && "channel_id" in data)
    case Attribute(data) => !("key" in data && "value" in data) || InvalidFlag(c)
    case _ => false
  }

  /** A Video or Audio attribute whose value is neither true nor false. */
  predicate InvalidFlag(c: FtlCommand) {
    && c.Attribute? && "key" in c.data && "value" in c.data
    && (c.data["key"] == "Video" || c.data["key"] == "Audio")
    && c.data["value"] != "true" && c.data["value"] != "false"
  }

  /** The handler leaves a command unanswered exactly in those cases, and then changes nothing. */
  lemma UnansweredExactly(c: FtlCommand, payload: string, st: ConnectionState)
    requires !c.Dot? && !c.Disconnect?
    ensures HandleCommand(c, payload, st).1.None? <==> Unanswered(c)
    ensures Unanswered(c) ==> HandleCommand(c, payload, st).0 == st
  {
    if c.Attribute? && "key" in c.data && "value" in c.data && InvalidFlag(c) {
      assert "Video"[0] == 'V' && "Video"[1] == 'i' && |"Video"| == 5;
      assert "Audio"[0] == 'A' && |"Audio"| == 5;
    }
  }

  /** The handler never touches the port; a state keeps the first port it got. */
  lemma AttributesKeepPort(st: ConnectionState, key: string, value: string)
    ensures var st' := SetAttribute(st, key, value); st'.Some? ==> st'.value.rtpPort == st.rtpPort
  {}

  lemma HandlerKeepsPort(c: FtlCommand, payload: string, st: ConnectionState)
    ensures HandleCommand(c, payload, st).0.rtpPort == st.rtpPort
  {
    if c.Attribute? && "key" in c.data && "value" in c.data {
      AttributesKeepPort(st, c.data["key"], c.data["value"]);
    }
  }

  /** For commands a codec produced, only an invalid flag silences the session. */
  lemma OnlyInvalidFlagsSilence(c: FtlCommand)
    requires WellFormed(c)
    ensures Unanswered(c) <==> InvalidFlag(c)
  {}
}

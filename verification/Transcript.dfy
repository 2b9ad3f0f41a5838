/**
  The reply transcript: the bytes a client reads back can be cut at their newlines
  into exactly the non-empty replies, and every reply can be recognised.
 */
module Transcript {
  import opened Wrappers
  import opened ConnectionStates
  import opened FtlCodec
  import opened Interpreter
  import opened Numerals
  import opened Text

  datatype Reply =
    | Payload(hex: string)
    | Accepted
    | Nothing
    | Pong
    | UsePort(port: nat)
    | Refusal

  function Render(r: Reply): string {
    match r
    case Payload(hex) => "200 " + hex + "\n"
    case Accepted => "200\n"
    case Nothing => ""
    case Pong => "201\n"
    case UsePort(port) => "200 hi. Use UDP port " + Decimal(port) + "\n"
    case Refusal => "500 failed to allocate port\n"
  }

  function RenderAll(rs: seq<Reply>): string {
    if rs == [] then "" else Render(rs[0]) + RenderAll(rs[1..])
  }

  /** What the client is told by the k-th command in a session that stands at `s`. */
  function Answer(w: World, k: nat, s: Session, c: FtlCommand): seq<Reply> {
    if !s.verdict.Serving? || Unanswered(c) then []
    else match c
      case HMAC => [Payload(w.hmac(k))]
      case Connect(_) => [Accepted]
      case Attribute(_) => [Nothing]
      case Ping => [Pong]
      case Disconnect => []
      case Dot =>
        if s.state.rtpPort.Some? then [UsePort(s.state.rtpPort.value)]
        else match AllocatePort(w.port(k))
          case Some(port) => [UsePort(port)]
          case None => [Refusal]
  }

  function Answers(w: World, cs: seq<FtlCommand>): seq<Reply> {
    if cs == [] then []
    else
      var before := cs[..|cs| - 1];
      Answers(w, before) + Answer(w, |before|, Interpret(w, before), cs[|cs| - 1])
  }

  lemma {:induction false} RenderAllAppend(a: seq<Reply>, b: seq<Reply>)
    ensures RenderAll(a + b) == RenderAll(a) + RenderAll(b)
  {
    if a == [] {
      assert a + b == b;
    } else {
      assert (a + b)[1..] == a[1..] + b;
      RenderAllAppend(a[1..], b);
    }
  }

  lemma RenderOne(r: Reply)
    ensures RenderAll([r]) == Render(r)
  {}

  lemma HandlerRenders(c: FtlCommand, payload: string, st: ConnectionState)
    requires !c.Dot? && !c.Disconnect? && !Unanswered(c)
    ensures HandleCommand(c, payload, st).1.Some?
    ensures Concat(HandleCommand(c, payload, st).1.value) == match c
      case HMAC => "200 " + payload + "\n"
      case Connect(_) => "200\n"
      case Attribute(_) => ""
      case _ => "201\n"
  {
    UnansweredExactly(c, payload, st);
    ConcatThree("200 ", payload, "\n");
    ConcatOne("200\n");
    ConcatOne("");
    ConcatOne("201\n");
  }

  lemma ConcatOne(a: string)
    ensures Concat([a]) == a
  {}

  lemma ConcatThree(a: string, b: string, c: string)
    ensures Concat([a, b, c]) == a + b + c
  {
    assert [a, b, c][1..] == [b, c];
    assert [b, c][1..] == [c];
    ConcatOne(c);
    assert Concat([b, c]) == b + c;
    assert a + (b + c) == a + b + c;
  }

  lemma ServeRenders(w: World, k: nat, s: Session, c: FtlCommand)
    ensures Serve(w, k, s, c).out == s.out + RenderAll(Answer(w, k, s, c))
  {
    var answer := Answer(w, k, s, c);
    if answer != [] {
      RenderOne(answer[0]);
    }
    if c.Dot? {
      ConcatOne("500 failed to allocate port\n");
      if s.verdict.Serving? && answer[0].UsePort? {
        ConcatOne(Render(answer[0]));
      }
    } else if s.verdict.Serving? && !c.Disconnect? {
      UnansweredExactly(c, w.hmac(k), s.state);
      if !Unanswered(c) {
        HandlerRenders(c, w.hmac(k), s.state);
      }
    }
  }

  /** The socket carries the replies, one after the other, and nothing else. */
  lemma {:induction false} OutputIsReplies(w: World, cs: seq<FtlCommand>)
    ensures Interpret(w, cs).out == RenderAll(Answers(w, cs))
  {
    if cs != [] {
      var before := cs[..|cs| - 1];
      OutputIsReplies(w, before);
      ServeRenders(w, |before|, Interpret(w, before), cs[|cs| - 1]);
      RenderAllAppend(Answers(w, before), Answer(w, |before|, Interpret(w, before), cs[|cs| - 1]));
    }
  }

  // ---- reading a transcript ----

  const USE_PORT: string := "200 hi. Use UDP port "

  /** What one line means to the client. */
  function ParseLine(line: string): Option<Reply> {
    if line == "200" then Some(Accepted)
    else if line == "201" then Some(Pong)
    else if line == "500 failed to allocate port" then Some(Refusal)
    else if USE_PORT <= line then
      var n := ParseDecimal(line[|USE_PORT|..]);
      if n < 0 then None else Some(UsePort(n))
    else if "200 " <= line then Some(Payload(line[4..]))
    else None
  }

  /** The complete lines of a text. */
  function Lines(text: string): seq<string>
    decreases |text|
  {
    match IndexOf(text, '\n')
    case None => []
    case Some(i) => [text[..i]] + Lines(text[i + 1..])
  }

  function ParseLines(lines: seq<string>): seq<Option<Reply>> {
    if lines == [] then [] else [ParseLine(lines[0])] + ParseLines(lines[1..])
  }

  function Loud(rs: seq<Reply>): seq<Option<Reply>> {
    if rs == [] then []
    else (if rs[0].Nothing? then [] else [Some(rs[0])]) + Loud(rs[1..])
  }

  predicate HexPayloads(rs: seq<Reply>) {
    forall k :: 0 <= k < |rs| && rs[k].Payload? ==> IsHex(rs[k].hex)
  }

  function Body(r: Reply): string
    requires !r.Nothing?
  {
    Render(r)[..|Render(r)| - 1]
  }

  lemma BodyIs(r: Reply, body: string)
    requires !r.Nothing? && Render(r) == body + ['\n']
    ensures Body(r) == body
  {}

  lemma BodyShape(r: Reply)
    requires !r.Nothing? && (r.Payload? ==> IsHex(r.hex))
    ensures Render(r) == Body(r) + ['\n'] && '\n' !in Body(r)
  {
    match r
    case Payload(hex) =>
      assert '\n' !in hex;
      BodyIs(r, "200 " + hex);
    case UsePort(port) =>
      assert '\n' !in Decimal(port);
      BodyIs(r, USE_PORT + Decimal(port));
    case Accepted => BodyIs(r, "200");
    case Pong => BodyIs(r, "201");
    case Refusal => BodyIs(r, "500 failed to allocate port");
  }

  lemma ParseUsePort(port: nat)
    ensures ParseLine(USE_PORT + Decimal(port)) == Some(UsePort(port))
  {
    var line := USE_PORT + Decimal(port);
    assert line[|USE_PORT|..] == Decimal(port);
    DecimalRoundTrip(port);
    assert |line| > 20;
    assert line[0] == '2' && "500 failed to allocate port"[0] == '5';
  }

  lemma ParsePayload(hex: string)
    requires IsHex(hex)
    ensures ParseLine("200 " + hex) == Some(Payload(hex))
  {
    var line := "200 " + hex;
    assert line[4..] == hex;
    assert |line| >= 4;
    assert line[0] == '2' && "500 failed to allocate port"[0] == '5';
    if |hex| > 0 {
      assert line[4] == hex[0] && USE_PORT[4] == 'h';
    }
    assert !(USE_PORT <= line);
  }

  lemma BodyParses(r: Reply)
    requires !r.Nothing? && (r.Payload? ==> IsHex(r.hex))
    ensures ParseLine(Body(r)) == Some(r)
  {
    match r
    case Payload(hex) =>
      assert Body(r) == "200 " + hex;
      ParsePayload(hex);
    case UsePort(port) =>
      assert Body(r) == USE_PORT + Decimal(port);
      ParseUsePort(port);
    case Accepted => assert Body(r) == "200";
    case Pong => assert Body(r) == "201";
    case Refusal => assert Body(r) == "500 failed to allocate port";
  }

  lemma LinesCons(line: string, text: string)
    requires '\n' !in line
    ensures Lines(line + ['\n'] + text) == [line] + Lines(text)
  {
    var all := line + ['\n'] + text;
    assert all[..|line|] == line && all[|line| + 1..] == text;
    IndexOfIs(all, '\n', |line|);
  }

  /** Cutting the transcript at its newlines gives back every non-empty reply, in order. */
  lemma {:induction false} TranscriptParses(rs: seq<Reply>)
    requires HexPayloads(rs)
    ensures ParseLines(Lines(RenderAll(rs))) == Loud(rs)
  {
    if rs != [] {
      var r, tail := rs[0], RenderAll(rs[1..]);
      TranscriptParses(rs[1..]);
      if r.Nothing? {
        assert RenderAll(rs) == tail;
      } else {
        BodyShape(r);
        LinesCons(Body(r), tail);
        BodyParses(r);
        assert ([Body(r)] + Lines(tail))[1..] == Lines(tail);
      }
    }
  }

  ghost predicate HexWorld(w: World) {
    forall k :: IsHex(w.hmac(k))
  }

  lemma {:induction false} AnswersAreHex(w: World, cs: seq<FtlCommand>)
    requires HexWorld(w)
    ensures HexPayloads(Answers(w, cs))
  {
    if cs != [] {
      AnswersAreHex(w, cs[..|cs| - 1]);
    }
  }

  /** A client can read off everything it was told, including its challenge and its port. */
  lemma ClientReadsReplies(w: World, cs: seq<FtlCommand>)
    requires HexWorld(w)
    ensures ParseLines(Lines(Interpret(w, cs).out)) == Loud(Answers(w, cs))
  {
    OutputIsReplies(w, cs);
    AnswersAreHex(w, cs);
    TranscriptParses(Answers(w, cs));
  }
}

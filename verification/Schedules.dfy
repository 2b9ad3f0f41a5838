/**
  The other half of the refinement: every session of the sequential interpreter is what some
  schedule of the two tasks does, and the sessions that go wrong do so on inputs a client can send.
 */
module Schedules {
  import opened Wrappers
  import opened CommandSyntax
  import opened ConnectionTheorems
  import opened Framing
  import opened FtlCodec
  import opened Interpreter
  import opened LockStep
  import opened StreamDecoder
  import opened Text
  import opened TwoTasks

  /** The frame task reads, the command task waits, and the session so far is this list of commands. */
  predicate Serves(s: State, received: seq<byte>, cs: seq<FtlCommand>) {
    s.frame.Reading? && s.command.Receiving? && s.received == received && s.taken == cs
  }

  /** A command that is being answered: the session goes on after it. */
  ghost predicate Answering(w: World, s: State) {
    && s.taken != [] && Interpret(w, s.taken).verdict.Serving? && !s.frame.FrameReturned? && !s.command.CommandReturned?
  }

  lemma AnsweringKeepsOn(w: World, s: State)
    requires Phase(w, s) && s.taken != [] && Interpret(w, s.taken).verdict.Serving?
    ensures s.frame.Awaiting? && s.toFrame == [] ==> InRound(s.command) && (s.command.Receiving? ==> s.toCommand != [])
    ensures s.frame.Reading? ==> s.command.Receiving?
    ensures !s.frame.FrameReturned? ==> !s.command.CommandReturned?
  {
    InterpretGrows(w, s.taken);
  }

  lemma FrameRoundStep(w: World, codec: Codec, s: State) returns (s': State)
    requires Phase(w, s) && !s.frame.Reading? && !s.frame.FrameReturned? && !s.command.CommandReturned?
    requires s.frame.Awaiting? ==> s.toFrame != []
    ensures FrameStep(codec, s, s') && RoundWork(s') < RoundWork(s) && !s'.frame.FrameReturned?
    ensures s'.received == s.received && s'.taken == s.taken && s'.command == s.command
  {
    s' := FrameCanStep(w, codec, s);
  }

  lemma CommandRoundStep(w: World, codec: Codec, s: State) returns (s': State)
    requires Phase(w, s) && s.frame.Awaiting? && s.toFrame == [] && InRound(s.command)
    requires s.command.Receiving? ==> s.toCommand != []
    ensures CommandStep(w, s, s') && RoundWork(s') < RoundWork(s)
    ensures s'.received == s.received && s'.taken == s.taken && s'.frame == s.frame
  {
    s' := CommandCanStep(w, codec, s);
    CommandShortensRound(w, s, s');
  }

  lemma CommandShortensRound(w: World, s: State, s': State)
    requires Phase(w, s) && s.frame.Awaiting? && s.toFrame == [] && InRound(s.command)
    requires s.command.Receiving? ==> s.toCommand != []
    requires CommandStep(w, s, s') && s'.frame == s.frame
    ensures RoundWork(s') < RoundWork(s)
  {}

  lemma RoundStep(w: World, codec: Codec, s: State) returns (s': State)
    requires Reachable(w, codec, s) && Phase(w, s) && Answering(w, s) && !s.frame.Reading?
    ensures Reachable(w, codec, s') && RoundWork(s') < RoundWork(s)
    ensures s'.received == s.received && s'.taken == s.taken && !s'.frame.FrameReturned?
  {
    AnsweringKeepsOn(w, s);
    if s.frame.Awaiting? && s.toFrame == [] {
      s' := CommandRoundStep(w, codec, s);
    } else {
      s' := FrameRoundStep(w, codec, s);
    }
    StepIsReachable(w, codec, s, s');
  }

  lemma ReachableAnswers(w: World, codec: Codec, s: State)
    requires Reachable(w, codec, s) && s.taken != [] && Interpret(w, s.taken).verdict.Serving?
        && !s.frame.FrameReturned?
    ensures Phase(w, s) && Answering(w, s) && (s.frame.Reading? ==> s.command.Receiving?)
  {
    ReachableInv(w, codec, s);
    AnsweringKeepsOn(w, s);
  }

  /** The tasks can always finish a round that the session survives. */
  lemma {:induction false} RoundEnds(w: World, codec: Codec, s: State) returns (s': State)
    requires Reachable(w, codec, s) && s.taken != [] && Interpret(w, s.taken).verdict.Serving?
        && !s.frame.FrameReturned?
    ensures Reachable(w, codec, s') && Serves(s', s.received, s.taken)
    decreases RoundWork(s)
  {
    ReachableAnswers(w, codec, s);
    if s.frame.Reading? {
      s' := s;
    } else {
      var t := RoundStep(w, codec, s);
      s' := RoundEnds(w, codec, t);
    }
  }

  /** What the frame task decodes next is the next command of the whole stream. */
  lemma NextIsDecoded(codec: Codec, s: State)
    requires DecodedSoFar(codec, s) && s.frame.Reading? && |s.taken| < |Drain(codec, s.received).commands|
    ensures DecodeStep(codec, s.buffer).0 == Some(Command(Drain(codec, s.received).commands[|s.taken|]))
  {}

  /** The next command is decoded and handed to the command task. */
  lemma Decodes(w: World, codec: Codec, s: State) returns (s': State)
    requires Reachable(w, codec, s) && s.frame.Reading? && s.command.Receiving?
    requires |s.taken| < |Drain(codec, s.received).commands|
    ensures Reachable(w, codec, s') && s'.received == s.received
    ensures s'.taken == s.taken + [Drain(codec, s.received).commands[|s.taken|]]
    ensures s'.frame.Forwarding? && s'.command.Receiving?
  {
    ReachableInv(w, codec, s);
    NextIsDecoded(codec, s);
    var c := Drain(codec, s.received).commands[|s.taken|];
    s' := s.(frame := Forwarding(c), buffer := DecodeStep(codec, s.buffer).1, taken := s.taken + [c]);
    assert FrameDecodes(codec, s, s');
    StepIsReachable(w, codec, s, s');
  }

  lemma Arrives(w: World, codec: Codec, bytes: seq<byte>) returns (s: State)
    ensures Reachable(w, codec, s) && Serves(s, bytes, [])
  {
    assert IsRun(w, codec, [INITIAL]);
    s := INITIAL.(buffer := [] + bytes, received := [] + bytes);
    assert FrameReceives(codec, INITIAL, s, bytes);
    StepIsReachable(w, codec, INITIAL, s);
    assert [] + bytes == bytes;
  }

  lemma ServedBefore(w: World, cs: seq<FtlCommand>, n: nat)
    requires 0 < n <= |cs| && Interpret(w, cs[..n]).verdict.Serving?
    ensures Interpret(w, cs[..n - 1]).verdict.Serving? && cs[..n - 1] + [cs[n - 1]] == cs[..n]
  {
    assert Front(cs[..n]) == cs[..n - 1];
    InterpretGrows(w, cs[..n]);
  }

  lemma {:induction false} ServesUpTo(w: World, codec: Codec, bytes: seq<byte>, n: nat) returns (s: State)
    requires n <= |Drain(codec, bytes).commands| && Interpret(w, Drain(codec, bytes).commands[..n]).verdict.Serving?
    ensures Reachable(w, codec, s) && Serves(s, bytes, Drain(codec, bytes).commands[..n])
  {
    if n == 0 {
      s := Arrives(w, codec, bytes);
    } else {
      ServedBefore(w, Drain(codec, bytes).commands, n);
      var before := ServesUpTo(w, codec, bytes, n - 1);
      var during := Decodes(w, codec, before);
      s := RoundEnds(w, codec, during);
    }
  }

  /** As long as the interpreter serves, some schedule serves the same commands of the same bytes; its output
      and its state are then the interpreter's. */
  lemma SessionHappens(w: World, codec: Codec, bytes: seq<byte>, n: nat) returns (s: State)
    requires n <= |Drain(codec, bytes).commands| && Interpret(w, Drain(codec, bytes).commands[..n]).verdict.Serving?
    ensures Reachable(w, codec, s) && Serves(s, bytes, Drain(codec, bytes).commands[..n])
    ensures s.out == Interpret(w, Drain(codec, bytes).commands[..n]).out
    ensures s.conn == Interpret(w, Drain(codec, bytes).commands[..n]).state
  {
    s := ServesUpTo(w, codec, bytes, n);
    TwoTaskRefinement(w, codec, s);
  }

  lemma IsHandedOver(w: World, codec: Codec, s: State) returns (s': State)
    requires Reachable(w, codec, s) && s.frame.Forwarding? && s.command.Receiving?
    ensures s' == s.(frame := Awaiting, toCommand := [s.frame.command]) && Reachable(w, codec, s')
    ensures s.toFrame == [] && s.taken == s.consumed + [s.frame.command] && s.conn == Interpret(w, s.consumed).state
  {
    ReachableInv(w, codec, s);
    s' := s.(frame := Awaiting, toCommand := [s.frame.command]);
    assert FrameForwards(s, s');
    StepIsReachable(w, codec, s, s');
  }

  lemma IsTaken(w: World, codec: Codec, s: State) returns (s': State)
    requires Reachable(w, codec, s) && s.command.Receiving? && |s.toCommand| == 1 && s.toFrame == []
    ensures Reachable(w, codec, s') && s'.frame == s.frame && s'.received == s.received
    ensures s'.consumed == s.consumed + s.toCommand && s'.toCommand == [] && s'.toFrame == []
    ensures s.toCommand[0].Dot? && s.conn.rtpPort.None? ==> s'.command.Allocating? && s'.conn == s.conn
  {
    s' := CommandReceived(w, s);
    StepIsReachable(w, codec, s, s');
  }

  /** Whatever the next command is, it can reach the command task. */
  lemma NextIsConsumed(w: World, codec: Codec, bytes: seq<byte>, n: nat) returns (s: State)
    requires n < |Drain(codec, bytes).commands| && Interpret(w, Drain(codec, bytes).commands[..n]).verdict.Serving?
    ensures Reachable(w, codec, s) && s.received == bytes && s.consumed == Drain(codec, bytes).commands[..n + 1]
    ensures s.frame.Awaiting? && s.toCommand == [] && s.toFrame == []
    ensures var before := Interpret(w, Drain(codec, bytes).commands[..n]).state;
      Drain(codec, bytes).commands[n].Dot? && before.rtpPort.None? ==> s.command.Allocating? && s.conn == before
  {
    var s0 := ServesUpTo(w, codec, bytes, n);
    var s1 := Decodes(w, codec, s0);
    var s2 := IsHandedOver(w, codec, s1);
    s := IsTaken(w, codec, s2);
    Regrouped(Drain(codec, bytes).commands, n, s1.consumed, s1.frame.command);
  }

  lemma Regrouped(cs: seq<FtlCommand>, n: nat, consumed: seq<FtlCommand>, c: FtlCommand)
    requires n < |cs| && cs[..n] + [cs[n]] == consumed + [c]
    ensures consumed == cs[..n] && c == cs[n] && consumed + [c] == cs[..n + 1]
  {
    assert (consumed + [c])[..|consumed|] == consumed && (cs[..n] + [cs[n]])[..n] == cs[..n];
  }

  /** Every session that falls silent leaves the two tasks stuck on some schedule. */
  lemma SilenceSticks(w: World, codec: Codec, bytes: seq<byte>, n: nat) returns (s: State)
    requires n < |Drain(codec, bytes).commands| && Interpret(w, Drain(codec, bytes).commands[..n + 1]).verdict.Silent?
    requires Interpret(w, Drain(codec, bytes).commands[..n]).verdict.Serving?
    ensures Reachable(w, codec, s) && Stuck(s)
    ensures s.received == bytes && s.consumed == Drain(codec, bytes).commands[..n + 1]
  {
    s := NextIsConsumed(w, codec, bytes, n);
    ReachableInv(w, codec, s);
    StuckIsSilent(w, s);
  }

  /** The dot has been consumed and the answer to the port request names no port. */
  predicate PortFails(w: World, s: State) {
    && s.command.Allocating? && s.toFrame == [] && !s.frame.FrameReturned?
    && s.consumed != [] && w.port(|s.consumed| - 1).None?
  }

  lemma Refuses(w: World, codec: Codec, s: State) returns (s': State)
    requires Reachable(w, codec, s) && PortFails(w, s)
    ensures Reachable(w, codec, s') && s'.command.CommandReturned?
    ensures s'.conn == s.conn && s'.consumed == s.consumed && s'.received == s.received && s'.notices == s.notices
  {
    var s1 := s.(command := Replying(REFUSAL, Leave));
    assert CommandAllocates(w, s, s1);
    StepIsReachable(w, codec, s, s1);
    var s2 := s1.(toFrame := [REFUSAL], command := Returning);
    assert CommandReplies(s1, s2);
    StepIsReachable(w, codec, s1, s2);
    s' := s2.(command := CommandReturned, toCommand := []);
    assert CommandLeaves(s2, s');
    StepIsReachable(w, codec, s2, s');
  }

  lemma RefusedDot(w: World, cs: seq<FtlCommand>)
    requires cs != [] && Last(cs).Dot? && Interpret(w, Front(cs)).verdict.Serving? && Interpret(w, cs).verdict.Returned?
    ensures Interpret(w, Front(cs)).state.rtpPort.None? && w.port(|cs| - 1).None?
  {}

  /** Every session whose port is refused ends without the announcement on some schedule. */
  lemma RefusalIsSilent(w: World, codec: Codec, bytes: seq<byte>, n: nat) returns (s: State)
    requires n < |Drain(codec, bytes).commands| && Drain(codec, bytes).commands[n].Dot?
    requires Interpret(w, Drain(codec, bytes).commands[..n]).verdict.Serving?
    requires Interpret(w, Drain(codec, bytes).commands[..n + 1]).verdict.Returned?
    ensures Reachable(w, codec, s) && s.command.CommandReturned? && s.received == bytes && s.notices == []
    ensures s.conn == Interpret(w, Drain(codec, bytes).commands[..n]).state
  {
    var upTo := Drain(codec, bytes).commands[..n + 1];
    assert Front(upTo) == Drain(codec, bytes).commands[..n];
    RefusedDot(w, upTo);
    var t := NextIsConsumed(w, codec, bytes, n);
    s := Refuses(w, codec, t);
    RefusedUnannounced(w, codec, s, upTo);
  }

  lemma RefusedUnannounced(w: World, codec: Codec, s: State, cs: seq<FtlCommand>)
    requires Reachable(w, codec, s) && s.command.CommandReturned? && s.consumed == cs
    requires cs != [] && Last(cs).Dot? && Interpret(w, cs).verdict.Returned?
    ensures s.notices == []
  {
    EndAnnouncedOnce(w, codec, s);
  }

  // ---- inputs a client can send ----

  /** The bytes of a list of commands, as a client writes them. */
  ghost function Wire(cs: seq<Spoken>): seq<byte>
    requires AllSendable(cs)
  {
    JoinFrames(WireLines(cs))
  }

  lemma WireIsDecoded(utf8: Utf8, cs: seq<Spoken>)
    requires ReadsAscii(utf8) && AllSendable(cs)
    ensures Drain(Frame(utf8), Wire(cs)) == Decoded(Meanings(cs), Open, [])
  {
    WireRoundTrip(utf8, cs, [Wire(cs)]);
    ChunkIndependence(Frame(utf8), [], [Wire(cs)]);
    assert [] + Flatten([Wire(cs)]) == Wire(cs);
  }

  /** A line without the delimiter's characters can be sent. */
  lemma PlainIsSendable(c: Spoken)
    requires Printable(c) && Ascii(Line(c)) && forall i :: 0 <= i < |Line(c)| ==> Line(c)[i] as int >= 32
    ensures Sendable(c)
  {}

  /** A Video or Audio attribute that is neither true nor false, sent first thing, sticks the connection. */
  lemma InvalidFlagSticks(w: World, utf8: Utf8, key: string, value: string) returns (s: State)
    requires ReadsAscii(utf8) && (key == "Video" || key == "Audio") && value != "true" && value != "false"
    requires Sendable(SayAttribute(key, value))
    ensures AllSendable([SayAttribute(key, value)])
    ensures Reachable(w, Frame(utf8), s) && Stuck(s) && s.received == Wire([SayAttribute(key, value)])
  {
    var cs := [SayAttribute(key, value)];
    WireIsDecoded(utf8, cs);
    var meant := Meaning(cs[0]);
    assert Meanings(cs) == [meant] && [meant][..1] == [meant] && [meant][..0] == [];
    InvalidFlagSilences(w, meant);
    s := SilenceSticks(w, Frame(utf8), Wire(cs), 0);
  }

  lemma InvalidFlagSilences(w: World, c: FtlCommand)
    requires InvalidFlag(c)
    ensures Interpret(w, []).verdict.Serving? && Interpret(w, [c]).verdict.Silent?
  {
    assert Front([c]) == [];
    UnansweredSilences(w, [c]);
  }

  /** For one: "Video: maybe". */
  lemma VideoMaybeSticks(w: World, utf8: Utf8) returns (s: State)
    requires ReadsAscii(utf8)
    ensures AllSendable([SayAttribute("Video", "maybe")])
    ensures Reachable(w, Frame(utf8), s) && Stuck(s) && s.received == Wire([SayAttribute("Video", "maybe")])
  {
    NoWords("Video");
    NoWords("maybe");
    PlainIsSendable(SayAttribute("Video", "maybe"));
    s := InvalidFlagSticks(w, utf8, "Video", "maybe");
  }

  lemma NoWords(s: string)
    requires 'H' !in s && 'C' !in s && 'D' !in s
    ensures !Contains(s, "HMAC") && !Contains(s, "CONNECT") && !Contains(s, "DISCONNECT")
  {
    AbsentCharacter(s, "HMAC", 0);
    AbsentCharacter(s, "CONNECT", 0);
    AbsentCharacter(s, "DISCONNECT", 0);
  }

  /** A connect and a dot whose port request fails: the session ends, and nobody is told that the stream did. */
  lemma RefusedAfterConnect(w: World, utf8: Utf8, id: string, key: string) returns (s: State)
    requires ReadsAscii(utf8) && Sendable(SayConnect(id, key)) && w.port(1).None?
    ensures AllSendable([SayConnect(id, key), SayDot])
    ensures Reachable(w, Frame(utf8), s) && s.received == Wire([SayConnect(id, key), SayDot])
    ensures s.command.CommandReturned? && s.conn.streamKey == Some(key) && s.notices == []
  {
    ConnectAndDotDecoded(utf8, id, key);
    ConnectThenRefusal(w, id, key);
    s := RefusesSecond(w, Frame(utf8), Wire([SayConnect(id, key), SayDot]), Meaning(SayConnect(id, key)));
  }

  lemma ConnectAndDotDecoded(utf8: Utf8, id: string, key: string)
    requires ReadsAscii(utf8) && Sendable(SayConnect(id, key))
    ensures AllSendable([SayConnect(id, key), SayDot])
    ensures Drain(Frame(utf8), Wire([SayConnect(id, key), SayDot])).commands == [Meaning(SayConnect(id, key)), Dot]
  {
    var cs := [SayConnect(id, key), SayDot];
    PlainIsSendable(SayDot);
    WireIsDecoded(utf8, cs);
    assert cs[1..] == [SayDot] && Meanings([SayDot]) == [Dot];
  }

  lemma RefusesSecond(w: World, codec: Codec, bytes: seq<byte>, first: FtlCommand) returns (s: State)
    requires Drain(codec, bytes).commands == [first, Dot]
    requires Interpret(w, [first]).verdict.Serving? && Interpret(w, [first, Dot]).verdict.Returned?
    ensures Reachable(w, codec, s) && s.command.CommandReturned? && s.received == bytes && s.notices == []
    ensures s.conn == Interpret(w, [first]).state
  {
    assert [first, Dot][..1] == [first] && [first, Dot][..2] == [first, Dot];
    s := RefusalIsSilent(w, codec, bytes, 1);
  }

  lemma ConnectThenRefusal(w: World, id: string, key: string)
    requires w.port(1).None?
    ensures var connect := Meaning(SayConnect(id, key));
      && Interpret(w, [connect]).verdict.Serving? && Interpret(w, [connect]).state.streamKey == Some(key)
      && Interpret(w, [connect, Dot]).verdict.Returned?
  {
    var connect := Meaning(SayConnect(id, key));
    InterpretSnoc(w, [], connect);
    assert [] + [connect] == [connect] && [connect] + [Dot] == [connect, Dot];
    assert "channel_id"[0] != "stream_key"[0];
    InterpretSnoc(w, [connect], Dot);
  }

  /** For one: "CONNECT 1 $k". */
  lemma ConnectOneIsRefused(w: World, utf8: Utf8) returns (s: State)
    requires ReadsAscii(utf8) && w.port(1).None?
    ensures AllSendable([SayConnect("1", "k"), SayDot])
    ensures Reachable(w, Frame(utf8), s) && s.received == Wire([SayConnect("1", "k"), SayDot])
    ensures s.command.CommandReturned? && s.conn.streamKey == Some("k") && s.notices == []
  {
    NoWords("1");
    NoWords("k");
    PlainIsSendable(SayConnect("1", "k"));
    s := RefusedAfterConnect(w, utf8, "1", "k");
  }
}

/**
  The lock-step discipline of the two tasks: an inductive invariant that ties every
  reachable state to the sequential interpreter.
 */
module LockStep {
  import opened Wrappers
  import opened ConnectionStates
  import opened Framing
  import opened FtlCodec
  import opened Interpreter
  import opened StreamDecoder
  import opened Text
  import opened TwoTasks

  function Front<T>(s: seq<T>): seq<T>
    requires s != []
  {
    s[..|s| - 1]
  }

  function Last<T>(s: seq<T>): T
    requires s != []
  {
    s[|s| - 1]
  }

  /** The command task rests: it waits for a command, or has refused a port and leaves. */
  predicate Rests(s: State, at: Session) {
    && s.conn == at.state
    && ((s.command.Receiving? && at.verdict.Serving?)
        || ((s.command.Returning? || s.command.CommandReturned?) && at.verdict.Returned? && at.state.rtpPort.None?))
  }

  predicate Leaving(c: CommandPc) {
    c.Closing? || c.Releasing? || c.Returning? || c.CommandReturned?
  }

  /** The last command was consumed and is being dealt with. */
  predicate Handling(w: World, s: State)
    requires s.taken != []
  {
    var before, now := Interpret(w, Front(s.taken)), Interpret(w, s.taken);
    && s.out == before.out
    && match s.command
       case Allocating =>
         s.conn == before.state && s.conn.rtpPort.None? && Last(s.taken).Dot?
       case Replying(parts, after) =>
         && s.conn == now.state && now.out == s.out + Concat(parts) && 1 <= |parts| <= 3
         && now.verdict == (if after.Leave? then Returned else Serving)
         && (after.Leave? ==> s.conn.rtpPort.None? && Last(s.taken).Dot?)
       case Receiving =>
         s.conn == now.state && now.out == s.out && now.verdict.Silent?
       case _ =>
         s.conn == now.state && now.out == s.out && now.verdict.Returned?
  }

  /** The command is on its way to the command task, is being handled there, or its reply is on its way back. */
  predicate Outstanding(w: World, s: State)
    requires s.taken != []
  {
    var before, now := Interpret(w, Front(s.taken)), Interpret(w, s.taken);
    && before.verdict.Serving?
    && (|| (s.toCommand == [Last(s.taken)] && s.toFrame == [] && s.consumed == Front(s.taken)
            && s.command.Receiving? && s.conn == before.state && s.out == before.out)
        || (s.toCommand == [] && s.toFrame == [] && s.consumed == s.taken && Handling(w, s))
        || (s.toCommand == [] && |s.toFrame| == 1 && s.consumed == s.taken
            && 1 <= |s.toFrame[0]| <= 3 && s.out == before.out
            && now.out == s.out + Concat(s.toFrame[0]) && Rests(s, now)))
  }

  /** The command came after the refusal: nobody will take it. */
  predicate Unheeded(w: World, s: State)
    requires s.taken != []
  {
    var before := Interpret(w, Front(s.taken));
    && before.verdict.Returned? && Rests(s, before) && s.out == before.out
    && s.consumed == Front(s.taken) && s.toFrame == []
    && s.toCommand == if s.command.Returning? then [Last(s.taken)] else []
  }

  predicate Idle(s: State) {
    s.toCommand == [] && s.toFrame == []
  }

  predicate Phase(w: World, s: State) {
    match s.frame
    case Reading =>
      Idle(s) && s.consumed == s.taken && s.out == Interpret(w, s.taken).out && Rests(s, Interpret(w, s.taken))
    case Forwarding(c) =>
      && Idle(s) && s.taken == s.consumed + [c]
      && s.out == Interpret(w, s.consumed).out && Rests(s, Interpret(w, s.consumed))
    case Awaiting =>
      s.taken != [] && (Outstanding(w, s) || Unheeded(w, s))
    case Writing(stack) =>
      && Idle(s) && s.consumed == s.taken && |stack| <= 3
      && s.taken != [] && Interpret(w, Front(s.taken)).out <= s.out
      && Interpret(w, s.taken).out == s.out + Concat(Reverse(stack)) && Rests(s, Interpret(w, s.taken))
    case FrameReturned =>
      && Idle(s)
      && (s.consumed == s.taken || (s.taken != [] && s.consumed == Front(s.taken)))
      && s.out <= Interpret(w, s.taken).out
      && (s.taken != [] ==> Interpret(w, Front(s.taken)).out <= s.out)
      && s.conn == Interpret(w, s.consumed).state
      && !Interpret(w, s.consumed).verdict.Silent?
      && ((s.command.Receiving? && Interpret(w, s.consumed).verdict.Serving?) || Leaving(s.command))
  }

  /** The port is allocated at most once, and freed when the command task is through. */
  predicate PortDiscipline(s: State) {
    && s.leased == (if s.conn.rtpPort.Some? then [s.conn.rtpPort.value] else [])
    && s.freed == (if s.command.CommandReturned? then s.leased else [])
    && (s.command.Returning? ==> s.leased == [])
  }

  /** The last command asked for a port and got none. */
  predicate Refused(w: World, s: State) {
    s.consumed != [] && Last(s.consumed).Dot? && Interpret(w, s.consumed).verdict.Returned?
  }

  /** The end of the stream is announced once, on the way out, and not after a refusal. */
  predicate Farewell(w: World, s: State) {
    var keys := if s.conn.streamKey.Some? then [s.conn.streamKey.value] else [];
    match s.command
    case Closing => s.notices == [] && !Refused(w, s)
    case Releasing => s.notices == keys && !Refused(w, s)
    case Returning => s.notices == [] && Refused(w, s)
    case CommandReturned => s.notices == if Refused(w, s) then [] else keys
    case _ => s.notices == []
  }

  ghost predicate DecodedSoFar(codec: Codec, s: State) {
    Drain(codec, s.received) == After(s.taken, Drain(codec, s.buffer))
  }

  /** No command is consumed after one that ended the session or got no reply. */
  predicate Attended(w: World, s: State) {
    s.consumed != [] ==> Interpret(w, Front(s.consumed)).verdict.Serving?
  }

  ghost predicate Inv(w: World, codec: Codec, s: State) {
    Phase(w, s) && Attended(w, s) && PortDiscipline(s) && Farewell(w, s) && DecodedSoFar(codec, s)
  }

  lemma InitInv(w: World, codec: Codec)
    ensures Inv(w, codec, INITIAL)
  {
    AfterNothing(Drain(codec, []));
  }

  // ---- each step keeps the invariant ----

  lemma KeepsDecoding(codec: Codec, s: State, s': State, chunk: seq<byte>)
    requires DecodedSoFar(codec, s) && FrameReceives(codec, s, s', chunk)
    ensures DecodedSoFar(codec, s')
  {
    DrainAppend(codec, s.received, chunk);
    assert Drain(codec, s.buffer) == Decoded([], Open, s.buffer);
    assert s.taken + [] == s.taken;
  }

  lemma FrameReceivesKeepsInv(w: World, codec: Codec, s: State, s': State, chunk: seq<byte>)
    requires Inv(w, codec, s) && FrameReceives(codec, s, s', chunk)
    ensures Inv(w, codec, s')
  {
    KeepsDecoding(codec, s, s', chunk);
  }

  lemma FrameDecodesKeepsInv(w: World, codec: Codec, s: State, s': State)
    requires Inv(w, codec, s) && FrameDecodes(codec, s, s')
    ensures Inv(w, codec, s')
  {
    var (r, rest) := DecodeStep(codec, s.buffer);
    AfterAfter(s.taken, [r.value.command], Drain(codec, rest));
  }

  lemma FrameStopsKeepsInv(w: World, codec: Codec, s: State, s': State)
    requires Inv(w, codec, s) && FrameStops(codec, s, s')
    ensures Inv(w, codec, s')
  {
    if s.taken != [] {
      InterpretGrows(w, s.taken);
    }
  }

  /** Output only grows, and a session that is over stays as it is. */
  lemma InterpretGrows(w: World, cs: seq<FtlCommand>)
    requires cs != []
    ensures Interpret(w, Front(cs)).out <= Interpret(w, cs).out
    ensures !Interpret(w, Front(cs)).verdict.Serving? ==> Interpret(w, cs) == Interpret(w, Front(cs))
  {}

  lemma FrameForwardsKeepsInv(w: World, codec: Codec, s: State, s': State)
    requires Inv(w, codec, s) && FrameForwards(s, s')
    ensures Inv(w, codec, s')
  {
    assert Front(s.taken) == s.consumed;
  }

  lemma FrameForwardFailsKeepsInv(w: World, codec: Codec, s: State, s': State)
    requires Inv(w, codec, s) && FrameForwardFails(s, s')
    ensures Inv(w, codec, s')
  {
    assert Front(s.taken) == s.consumed;
    InterpretGrows(w, s.taken);
  }

  lemma FrameTakesReplyKeepsInv(w: World, codec: Codec, s: State, s': State)
    requires Inv(w, codec, s) && FrameTakesReply(s, s')
    ensures Inv(w, codec, s')
  {
    ReverseTwice(s.toFrame[0]);
  }

  lemma {:induction false} ReverseTwice<T>(s: seq<T>)
    ensures Reverse(Reverse(s)) == s
  {
    if s != [] {
      ReverseTwice(s[1..]);
      ReverseSnoc(Reverse(s[1..]), s[0]);
    }
  }

  lemma {:induction false} ReverseSnoc<T>(s: seq<T>, x: T)
    ensures Reverse(s + [x]) == [x] + Reverse(s)
  {
    if s != [] {
      assert (s + [x])[1..] == s[1..] + [x];
      ReverseSnoc(s[1..], x);
    }
  }

  /** Popping the reversed parts writes them in their own order. */
  lemma PopOrder(out: string, stack: seq<string>)
    requires stack != []
    ensures out + Concat(Reverse(stack)) == out + Last(stack) + Concat(Reverse(Front(stack)))
  {
    assert stack == Front(stack) + [Last(stack)];
    ReverseSnoc(Front(stack), Last(stack));
    assert Reverse(stack)[1..] == Reverse(Front(stack));
  }

  lemma PrefixTrans(a: string, b: string, c: string)
    requires a <= b <= c
    ensures a <= c
  {}

  lemma FrameGetsNoReplyKeepsInv(w: World, codec: Codec, s: State, s': State)
    requires Inv(w, codec, s) && FrameGetsNoReply(s, s')
    ensures Inv(w, codec, s')
  {}

  lemma FrameWritesKeepsInv(w: World, codec: Codec, s: State, s': State)
    requires Inv(w, codec, s) && FrameWrites(s, s')
    ensures Inv(w, codec, s')
  {
    PopOrder(s.out, s.frame.stack);
    PrefixTrans(Interpret(w, Front(s.taken)).out, s.out, s'.out);
  }

  lemma FrameWriteFailsKeepsInv(w: World, codec: Codec, s: State, s': State, n: nat)
    requires Inv(w, codec, s) && FrameWriteFails(s, s', n)
    ensures Inv(w, codec, s')
  {
    var item, tail := Last(s.frame.stack), Concat(Reverse(Front(s.frame.stack)));
    PopOrder(s.out, s.frame.stack);
    assert s.out + item[..n] <= s.out + item + tail;
    PrefixTrans(Interpret(w, Front(s.taken)).out, s.out, s'.out);
  }

  lemma FrameIsDoneWritingKeepsInv(w: World, codec: Codec, s: State, s': State)
    requires Inv(w, codec, s) && FrameIsDoneWriting(s, s')
    ensures Inv(w, codec, s')
  {
    assert s.out + Concat(Reverse([])) == s.out;
  }

  lemma HandlerRepliesInParts(c: FtlCommand, payload: string, st: ConnectionState)
    ensures var reply := HandleCommand(c, payload, st).1; reply.Some? ==> 1 <= |reply.value| <= 3
  {}

  lemma HandledKeepsPhase(w: World, s: State, t: State, handled: (ConnectionState, Option<seq<string>>))
    requires s.taken != [] && s.frame.Awaiting? && Outstanding(w, s) && s.toCommand != []
    requires t == s.(toCommand := [], consumed := s.taken)
    requires Interpret(w, s.taken) == Respond(Interpret(w, s.consumed), handled)
    requires handled.1.Some? ==> 1 <= |handled.1.value| <= 3
    ensures Phase(w, Handled(t, handled))
  {}

  /** A step of the command task that neither returns nor deals with ports. */
  predicate Harmless(s: State, s': State) {
    && s'.conn.rtpPort == s.conn.rtpPort && s'.leased == s.leased && s'.freed == s.freed
    && !s.command.CommandReturned? && !s'.command.CommandReturned?
    && s'.received == s.received && s'.taken == s.taken && s'.buffer == s.buffer && s'.notices == s.notices
  }

  lemma HarmlessKeepsInv(w: World, codec: Codec, s: State, s': State)
    requires Inv(w, codec, s) && Harmless(s, s') && Phase(w, s') && Attended(w, s')
    requires s.command.Receiving? && !s'.command.Releasing? && !s'.command.Returning?
    requires s'.command.Closing? ==> !Refused(w, s')
    ensures Inv(w, codec, s')
  {}

  lemma DotKeepsPhase(w: World, s: State, s': State)
    requires Phase(w, s) && CommandReceives(w, s, s') && s.toCommand[0].Dot?
    ensures Phase(w, s') && Harmless(s, s')
  {
    assert s'.consumed == s.taken;
    assert Interpret(w, s.taken) == Negotiate(w.port(|s.consumed|), Interpret(w, s.consumed));
  }

  lemma DisconnectKeepsPhase(w: World, s: State, s': State)
    requires Phase(w, s) && CommandReceives(w, s, s') && s.toCommand[0].Disconnect?
    ensures Phase(w, s') && Harmless(s, s')
  {
    assert s'.consumed == s.taken;
  }

  lemma OtherKeepsPhase(w: World, s: State, s': State)
    requires Phase(w, s) && CommandReceives(w, s, s') && !s.toCommand[0].Dot? && !s.toCommand[0].Disconnect?
    ensures Phase(w, s') && Harmless(s, s')
  {
    var c := s.toCommand[0];
    var handled := HandleCommand(c, w.hmac(|s.consumed|), s.conn);
    assert s.consumed + [c] == s.taken;
    HandlerRepliesInParts(c, w.hmac(|s.consumed|), s.conn);
    HandlerKeepsPort(c, w.hmac(|s.consumed|), s.conn);
    HandledKeepsPhase(w, s, s.(toCommand := [], consumed := s.taken), handled);
  }

  /** A consumed command is what the interpreter serves next. */
  lemma CommandReceivesKeepsPhase(w: World, s: State, s': State)
    requires Phase(w, s) && CommandReceives(w, s, s')
    ensures Phase(w, s') && Harmless(s, s') && Attended(w, s')
  {
    assert s'.consumed == s.taken && Interpret(w, Front(s.taken)).verdict.Serving?;
    match s.toCommand[0]
    case Dot => DotKeepsPhase(w, s, s');
    case Disconnect => DisconnectKeepsPhase(w, s, s');
    case _ => OtherKeepsPhase(w, s, s');
  }

  lemma ReceivedIsNotRefused(w: World, s: State, s': State)
    requires CommandReceives(w, s, s')
    ensures s.command.Receiving? && !s'.command.Releasing? && !s'.command.Returning?
    ensures s'.command.Closing? ==> !Refused(w, s')
  {
    assert Last(s'.consumed) == s.toCommand[0];
  }

  lemma CommandHangsUpKeepsInv(w: World, codec: Codec, s: State, s': State)
    requires Inv(w, codec, s) && CommandHangsUp(s, s')
    ensures Inv(w, codec, s')
  {}

  lemma AllocatingKeepsPhase(w: World, s: State, s': State)
    requires Phase(w, s) && CommandAllocates(w, s, s')
    ensures Phase(w, s') && s.conn.rtpPort.None?
  {
    assert s.frame.Awaiting? && s.consumed == s.taken;
    var before := Interpret(w, Front(s.taken));
    assert Interpret(w, s.taken) == Negotiate(w.port(|s.consumed| - 1), before);
  }

  lemma CommandAllocatesKeepsInv(w: World, codec: Codec, s: State, s': State)
    requires Inv(w, codec, s) && CommandAllocates(w, s, s')
    ensures Inv(w, codec, s')
  {
    AllocatingKeepsPhase(w, s, s');
  }

  lemma CommandRepliesKeepsInv(w: World, codec: Codec, s: State, s': State)
    requires Inv(w, codec, s) && CommandReplies(s, s')
    ensures Inv(w, codec, s')
  {
    assert s.frame.Awaiting? && s'.toFrame == [s.command.parts];
  }

  lemma CommandLeavesKeepsInv(w: World, codec: Codec, s: State, s': State)
    requires Inv(w, codec, s) && CommandLeaves(s, s')
    ensures Inv(w, codec, s')
  {}

  lemma CommandAnnouncesKeepsInv(w: World, codec: Codec, s: State, s': State)
    requires Inv(w, codec, s) && CommandAnnounces(s, s')
    ensures Inv(w, codec, s')
  {}

  lemma CommandFreesKeepsInv(w: World, codec: Codec, s: State, s': State)
    requires Inv(w, codec, s) && CommandFrees(s, s')
    ensures Inv(w, codec, s')
  {}

  lemma FrameStepKeepsInv(w: World, codec: Codec, s: State, s': State)
    requires Inv(w, codec, s) && FrameStep(codec, s, s')
    ensures Inv(w, codec, s')
  {
    if chunk :| FrameReceives(codec, s, s', chunk) {
      FrameReceivesKeepsInv(w, codec, s, s', chunk);
    } else if FrameDecodes(codec, s, s') {
      FrameDecodesKeepsInv(w, codec, s, s');
    } else if FrameStops(codec, s, s') {
      FrameStopsKeepsInv(w, codec, s, s');
    } else if FrameForwards(s, s') {
      FrameForwardsKeepsInv(w, codec, s, s');
    } else if FrameForwardFails(s, s') {
      FrameForwardFailsKeepsInv(w, codec, s, s');
    } else if FrameTakesReply(s, s') {
      FrameTakesReplyKeepsInv(w, codec, s, s');
    } else if FrameGetsNoReply(s, s') {
      FrameGetsNoReplyKeepsInv(w, codec, s, s');
    } else if FrameWrites(s, s') {
      FrameWritesKeepsInv(w, codec, s, s');
    } else if n :| FrameWriteFails(s, s', n) {
      FrameWriteFailsKeepsInv(w, codec, s, s', n);
    } else {
      FrameIsDoneWritingKeepsInv(w, codec, s, s');
    }
  }

  lemma CommandStepKeepsInv(w: World, codec: Codec, s: State, s': State)
    requires Inv(w, codec, s) && CommandStep(w, s, s')
    ensures Inv(w, codec, s')
  {
    if CommandReceives(w, s, s') {
      CommandReceivesKeepsPhase(w, s, s');
      ReceivedIsNotRefused(w, s, s');
      HarmlessKeepsInv(w, codec, s, s');
    } else if CommandHangsUp(s, s') {
      CommandHangsUpKeepsInv(w, codec, s, s');
    } else if CommandAllocates(w, s, s') {
      CommandAllocatesKeepsInv(w, codec, s, s');
    } else if CommandReplies(s, s') {
      CommandRepliesKeepsInv(w, codec, s, s');
    } else if CommandLeaves(s, s') {
      CommandLeavesKeepsInv(w, codec, s, s');
    } else if CommandAnnounces(s, s') {
      CommandAnnouncesKeepsInv(w, codec, s, s');
    } else if CommandFrees(s, s') {
      CommandFreesKeepsInv(w, codec, s, s');
    }
  }

  lemma {:induction false} PathKeepsInv(w: World, codec: Codec, path: seq<State>)
    requires IsPath(w, codec, path) && Inv(w, codec, path[0])
    ensures Inv(w, codec, Last(path))
  {
    if |path| > 1 {
      var front := Front(path);
      assert IsPath(w, codec, front);
      PathKeepsInv(w, codec, front);
      var s, s' := path[|path| - 2], path[|path| - 1];
      assert Step(w, codec, s, s');
      if FrameStep(codec, s, s') {
        FrameStepKeepsInv(w, codec, s, s');
      } else {
        CommandStepKeepsInv(w, codec, s, s');
      }
    }
  }

  /** Every reachable state, under every schedule and chunking, satisfies the invariant. */
  lemma ReachableInv(w: World, codec: Codec, s: State)
    requires Reachable(w, codec, s)
    ensures Inv(w, codec, s)
  {
    var run :| IsRun(w, codec, run) && run[|run| - 1] == s;
    InitInv(w, codec);
    PathKeepsInv(w, codec, run);
  }
}

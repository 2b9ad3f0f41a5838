/** What the lock-step invariant means for a connection. */
module ConnectionTheorems {
  import opened Wrappers
  import opened ConnectionStates
  import opened FtlCodec
  import opened Interpreter
  import opened LockStep
  import opened StreamDecoder
  import opened Text
  import opened Transcript
  import opened TwoTasks

  /** Whatever the schedule and however the bytes arrived, both tasks have done what the
      sequential interpreter does on a prefix of the commands in the bytes received:
      the connection state is the interpreter's after the consumed commands, and the socket
      carries the interpreter's output, complete up to the command being answered. */
  lemma TwoTaskRefinement(w: World, codec: Codec, s: State)
    requires Reachable(w, codec, s)
    ensures s.consumed <= s.taken <= Drain(codec, s.received).commands
    ensures |s.taken| <= |s.consumed| + 1
    ensures !s.command.Allocating? ==> s.conn == Interpret(w, s.consumed).state
    ensures s.command.Allocating? ==> s.consumed != [] && s.conn == Interpret(w, Front(s.consumed)).state
    ensures s.out <= Interpret(w, s.taken).out
    ensures s.taken != [] ==> Interpret(w, Front(s.taken)).out <= s.out
    ensures s.frame.Reading? ==> s.consumed == s.taken && s.out == Interpret(w, s.taken).out
  {
    ReachableInv(w, codec, s);
    TakenIsDecoded(codec, s);
    StateFollowsInterpreter(w, s);
    OutputFollowsInterpreter(w, s);
  }

  lemma TakenIsDecoded(codec: Codec, s: State)
    requires DecodedSoFar(codec, s)
    ensures s.taken <= Drain(codec, s.received).commands
  {}

  lemma StateFollowsInterpreter(w: World, s: State)
    requires Phase(w, s)
    ensures s.consumed <= s.taken && |s.taken| <= |s.consumed| + 1
    ensures !s.command.Allocating? ==> s.conn == Interpret(w, s.consumed).state
    ensures s.command.Allocating? ==> s.consumed != [] && s.conn == Interpret(w, Front(s.consumed)).state
  {}

  lemma OutputFollowsInterpreter(w: World, s: State)
    requires Phase(w, s)
    ensures s.out <= Interpret(w, s.taken).out
    ensures s.taken != [] ==> Interpret(w, Front(s.taken)).out <= s.out
    ensures s.frame.Reading? ==> s.consumed == s.taken && s.out == Interpret(w, s.taken).out
  {
    if s.taken != [] {
      InterpretGrows(w, s.taken);
    }
  }

  /** Whenever the frame task is back at the socket, what the client has read can be cut and
      parsed into exactly the non-empty replies to the commands decoded so far. */
  lemma ClientReadsSocket(w: World, codec: Codec, s: State)
    requires Reachable(w, codec, s) && s.frame.Reading? && HexWorld(w)
    ensures ParseLines(Lines(s.out)) == Loud(Answers(w, s.taken))
  {
    TwoTaskRefinement(w, codec, s);
    ClientReadsReplies(w, s.taken);
  }

  /** One command at a time: the channels never hold more than one item between them, so no send
      blocks, a waiting reply is the answer to the last command decoded, and whenever
      the command task sends, the frame task is there to receive. */
  lemma OneOutstanding(w: World, codec: Codec, s: State)
    requires Reachable(w, codec, s)
    ensures |s.toCommand| + |s.toFrame| <= 1
    ensures s.frame.Forwarding? ==> s.toCommand == []
    ensures s.command.Replying? ==> s.frame.Awaiting? && s.toFrame == []
    ensures s.toFrame != [] ==>
      && s.taken != [] && s.out == Interpret(w, Front(s.taken)).out
      && Interpret(w, s.taken).out == s.out + Concat(s.toFrame[0])
    ensures forall s' :: !CommandReplyFails(s, s')
  {
    ReachableInv(w, codec, s);
    ChannelsInPhase(w, s);
    if s.toFrame != [] {
      PendingReplyAnswers(w, s);
    }
    forall s' ensures !CommandReplyFails(s, s') {}
  }

  lemma ChannelsInPhase(w: World, s: State)
    requires Phase(w, s)
    ensures |s.toCommand| + |s.toFrame| <= 1
    ensures s.frame.Forwarding? ==> s.toCommand == []
    ensures s.command.Replying? ==> s.frame.Awaiting? && s.toFrame == []
  {}

  lemma PendingReplyAnswers(w: World, s: State)
    requires Phase(w, s) && s.toFrame != []
    ensures s.taken != [] && s.out == Interpret(w, Front(s.taken)).out
    ensures Interpret(w, s.taken).out == s.out + Concat(s.toFrame[0])
  {}

  /** The port is allocated at most once, held until the command task is done and freed exactly
      once by then: the exit that skips the release is never taken. */
  lemma PortReleasedExactlyOnce(w: World, codec: Codec, s: State)
    requires Reachable(w, codec, s)
    ensures |s.leased| <= 1
    ensures s.leased == if s.conn.rtpPort.Some? then [s.conn.rtpPort.value] else []
    ensures s.freed == if s.command.CommandReturned? then s.leased else []
    ensures s.command.Replying? && s.command.after.LeaveOnFailure? ==> !s.frame.FrameReturned?
  {
    ReachableInv(w, codec, s);
    ChannelsInPhase(w, s);
  }

  /** The end of the stream is announced at most once, for the key the client connected with; a
      session whose port was refused ends without the announcement. */
  lemma EndAnnouncedOnce(w: World, codec: Codec, s: State)
    requires Reachable(w, codec, s)
    ensures |s.notices| <= 1
    ensures s.command.CommandReturned? ==>
      s.notices == if Refused(w, s) || s.conn.streamKey.None? then [] else [s.conn.streamKey.value]
  {
    ReachableInv(w, codec, s);
    FarewellOnce(w, s);
  }

  lemma FarewellOnce(w: World, s: State)
    requires Farewell(w, s)
    ensures |s.notices| <= 1
    ensures s.command.CommandReturned? ==>
      s.notices == if Refused(w, s) || s.conn.streamKey.None? then [] else [s.conn.streamKey.value]
  {}

  // ---- stuck states ----

  /** Each task waits for the other and nothing is on the way. */
  predicate Stuck(s: State) {
    s.frame.Awaiting? && s.command.Receiving? && s.toCommand == [] && s.toFrame == []
  }

  lemma UnansweredSilences(w: World, cs: seq<FtlCommand>)
    requires cs != [] && Interpret(w, Front(cs)).verdict.Serving?
    ensures Interpret(w, cs).verdict.Silent? <==> Unanswered(Last(cs))
  {
    var c, before := Last(cs), Interpret(w, Front(cs));
    if !c.Dot? && !c.Disconnect? {
      UnansweredExactly(c, w.hmac(|cs| - 1), before.state);
    }
  }

  lemma StuckIsSilent(w: World, s: State)
    requires Phase(w, s) && Attended(w, s)
    ensures Stuck(s) <==> s.consumed != [] && Interpret(w, s.consumed).verdict.Silent?
  {}

  lemma StuckExactly(w: World, codec: Codec, s: State)
    requires Reachable(w, codec, s)
    ensures Stuck(s) <==> s.consumed != [] && Unanswered(Last(s.consumed))
  {
    ReachableInv(w, codec, s);
    StuckIsSilent(w, s);
    if s.consumed != [] {
      SilentIsUnanswered(w, s);
    }
  }

  lemma SilentIsUnanswered(w: World, s: State)
    requires Attended(w, s) && s.consumed != []
    ensures Interpret(w, s.consumed).verdict.Silent? <==> Unanswered(Last(s.consumed))
  {
    UnansweredSilences(w, s.consumed);
  }

  /** With the FTL codec, the connection gets stuck exactly when the last command consumed was
      a Video or Audio attribute that is neither true nor false. */
  lemma StuckExactlyOnInvalidFlag(w: World, utf8: Utf8, s: State)
    requires Reachable(w, Frame(utf8), s)
    ensures Stuck(s) <==> s.consumed != [] && InvalidFlag(Last(s.consumed))
  {
    StuckExactly(w, Frame(utf8), s);
    TwoTaskRefinement(w, Frame(utf8), s);
    DrainWellFormed(utf8, s.received);
    if s.consumed != [] {
      assert Last(s.consumed) == Drain(Frame(utf8), s.received).commands[|s.consumed| - 1];
      OnlyInvalidFlagsSilence(Last(s.consumed));
    }
  }

  predicate BothReturned(s: State) {
    s.frame.FrameReturned? && s.command.CommandReturned?
  }

  lemma FrameCanStep(w: World, codec: Codec, s: State) returns (s': State)
    requires Phase(w, s) && !s.frame.FrameReturned?
    requires s.frame.Awaiting? ==> s.toFrame != [] || s.command.CommandReturned?
    ensures FrameStep(codec, s, s') && s'.received == s.received && s'.command == s.command
    ensures s.command.CommandReturned? ==> s'.command.CommandReturned? && FrameWork(s') < FrameWork(s)
    ensures !s.frame.Reading? ==> s'.taken == s.taken
    ensures !s.frame.Reading? && !s.command.CommandReturned? ==>
      RoundWork(s') < RoundWork(s) && !s'.frame.FrameReturned?
  {
    match s.frame
    case Reading =>
      var (r, rest) := DecodeStep(codec, s.buffer);
      if r.Some? && r.value.Command? {
        s' := s.(frame := Forwarding(r.value.command), buffer := rest, taken := s.taken + [r.value.command]);
        assert FrameDecodes(codec, s, s');
      } else {
        s' := s.(frame := FrameReturned);
        assert FrameStops(codec, s, s');
      }
    case Forwarding(c) =>
      if s.command.CommandReturned? {
        s' := s.(frame := FrameReturned);
        assert FrameForwardFails(s, s');
      } else {
        s' := s.(frame := Awaiting, toCommand := s.toCommand + [c]);
        assert FrameForwards(s, s');
      }
    case Awaiting =>
      if s.toFrame != [] {
        s' := s.(frame := Writing(Reverse(s.toFrame[0])), toFrame := s.toFrame[1..]);
        assert FrameTakesReply(s, s');
      } else {
        s' := s.(frame := FrameReturned);
        assert FrameGetsNoReply(s, s');
      }
    case Writing(stack) =>
      if stack != [] {
        s' := s.(frame := Writing(Front(stack)), out := s.out + Last(stack));
        assert FrameWrites(s, s');
      } else {
        s' := s.(frame := Reading);
        assert FrameIsDoneWriting(s, s');
      }
  }

  lemma CommandCanStep(w: World, codec: Codec, s: State) returns (s': State)
    requires Phase(w, s) && !s.command.CommandReturned?
    requires s.command.Receiving? ==> s.toCommand != [] || s.frame.FrameReturned?
    ensures CommandStep(w, s, s') && s'.frame == s.frame && s'.received == s.received && s'.taken == s.taken
    ensures s.frame.FrameReturned? ==> s'.frame.FrameReturned? && CommandWork(s') < CommandWork(s)
  {
    match s.command
    case Receiving =>
      if s.toCommand == [] {
        s' := s.(command := Closing);
        assert CommandHangsUp(s, s');
      } else {
        s' := CommandReceived(w, s);
      }
    case Allocating =>
      s' := match AllocatePort(w.port(|s.consumed| - 1))
            case None => s.(command := Replying(REFUSAL, Leave))
            case Some(port) => s.(command := Replying(PortReply(port), LeaveOnFailure),
                                  conn := s.conn.(rtpPort := Some(port)), leased := s.leased + [port]);
      assert CommandAllocates(w, s, s');
    case Replying(parts, after) =>
      s' := s.(toFrame := s.toFrame + [parts], command := if after.Leave? then Returning else Receiving);
      assert CommandReplies(s, s');
    case Returning =>
      s' := s.(command := CommandReturned, toCommand := []);
      assert CommandLeaves(s, s');
    case Closing =>
      s' := s.(command := Releasing,
               notices := if s.conn.streamKey.Some? then s.notices + [s.conn.streamKey.value] else s.notices);
      assert CommandAnnounces(s, s');
    case Releasing =>
      s' := s.(command := CommandReturned,
               freed := if s.conn.rtpPort.Some? then s.freed + [s.conn.rtpPort.value] else s.freed);
      assert CommandFrees(s, s');
  }

  lemma CommandReceived(w: World, s: State) returns (s': State)
    requires s.command.Receiving? && s.toCommand != []
    ensures CommandReceives(w, s, s') && s'.frame == s.frame
    ensures s'.received == s.received && s'.taken == s.taken && s'.toFrame == s.toFrame
    ensures !s'.command.CommandReturned? && s'.toCommand == s.toCommand[1..]
  {
    var c := s.toCommand[0];
    var t := s.(toCommand := s.toCommand[1..], consumed := s.consumed + [c]);
    s' := match c
          case Disconnect => t.(command := Closing)
          case Dot =>
            (match s.conn.rtpPort
             case None => t.(command := Allocating)
             case Some(port) => t.(command := Replying(PortReply(port), LeaveOnFailure)))
          case _ => Handled(t, HandleCommand(c, w.hmac(|s.consumed|), s.conn));
  }

  lemma NothingHappens(w: World, codec: Codec, s: State, s': State)
    requires Stuck(s) || BothReturned(s)
    requires Phase(w, s)
    ensures !Step(w, codec, s, s')
  {}

  lemma SomethingHappens(w: World, codec: Codec, s: State) returns (s': State)
    requires Phase(w, s) && !Stuck(s) && !BothReturned(s)
    ensures Step(w, codec, s, s')
  {
    if !s.frame.FrameReturned? && (s.frame.Awaiting? ==> s.toFrame != [] || s.command.CommandReturned?) {
      s' := FrameCanStep(w, codec, s);
    } else {
      s' := CommandCanStep(w, codec, s);
    }
  }

  /** Nothing can happen any more exactly when both tasks have returned or both are stuck. */
  lemma DeadlockExactly(w: World, codec: Codec, s: State)
    requires Reachable(w, codec, s)
    ensures (forall s' :: !Step(w, codec, s, s')) <==> Stuck(s) || BothReturned(s)
  {
    ReachableInv(w, codec, s);
    if Stuck(s) || BothReturned(s) {
      forall s' ensures !Step(w, codec, s, s') {
        NothingHappens(w, codec, s, s');
      }
    } else {
      var s' := SomethingHappens(w, codec, s);
    }
  }

  // ---- one task's return brings the other home ----

  /** The steps the frame task has left once the command task has returned. */
  function FrameWork(s: State): nat {
    match s.frame
    case Reading => 2
    case Forwarding(_) => 1
    case Awaiting => if s.toFrame == [] then 1 else |s.toFrame[0]| + 4
    case Writing(stack) => |stack| + 3
    case FrameReturned => 0
  }

  /** The steps the command task has left once the frame task has returned. */
  function CommandWork(s: State): nat {
    match s.command
    case Receiving => 3
    case Closing => 2
    case Releasing => 1
    case Returning => 1
    case _ => 0
  }

  /** The steps the two tasks have left until the frame task reads again. */
  function RoundWork(s: State): nat {
    match s.frame
    case Forwarding(_) => 12
    case Awaiting =>
      if s.toFrame != [] then |s.toFrame[0]| + 3
      else if s.toCommand != [] then 11
      else CommandRound(s.command)
    case Writing(stack) => |stack| + 1
    case _ => 0
  }

  predicate InRound(c: CommandPc) {
    c.Receiving? || c.Allocating? || c.Replying?
  }

  function CommandRound(c: CommandPc): nat {
    match c
    case Receiving => 10
    case Allocating => 9
    case Replying(_, _) => 8
    case _ => 7
  }

  function Work(s: State): nat {
    if s.command.CommandReturned? then FrameWork(s) else CommandWork(s)
  }

  lemma {:induction false} HomePath(w: World, codec: Codec, s: State) returns (path: seq<State>)
    requires Reachable(w, codec, s) && (s.frame.FrameReturned? || s.command.CommandReturned?)
    ensures IsPath(w, codec, path) && path[0] == s && BothReturned(Last(path))
    ensures |path| <= Work(s) + 1
    decreases Work(s)
  {
    if BothReturned(s) {
      path := [s];
    } else {
      var s' := StepHome(w, codec, s);
      var rest := HomePath(w, codec, s');
      path := [s] + rest;
      PathCons(w, codec, s, rest);
    }
  }

  lemma StepHome(w: World, codec: Codec, s: State) returns (s': State)
    requires Reachable(w, codec, s) && (s.frame.FrameReturned? || s.command.CommandReturned?) && !BothReturned(s)
    ensures Step(w, codec, s, s') && Reachable(w, codec, s') && Work(s') < Work(s)
    ensures s'.frame.FrameReturned? || s'.command.CommandReturned?
  {
    ReachableInv(w, codec, s);
    if s.command.CommandReturned? {
      s' := FrameCanStep(w, codec, s);
    } else {
      s' := CommandCanStep(w, codec, s);
    }
    StepIsReachable(w, codec, s, s');
  }

  lemma StepIsReachable(w: World, codec: Codec, s: State, s': State)
    requires Reachable(w, codec, s) && Step(w, codec, s, s')
    ensures Reachable(w, codec, s')
  {
    var run :| IsRun(w, codec, run) && run[|run| - 1] == s;
    var longer := run + [s'];
    forall i | 0 <= i < |longer| - 1 ensures Step(w, codec, longer[i], longer[i + 1]) {
      assert i < |run| - 1 ==> longer[i] == run[i] && longer[i + 1] == run[i + 1];
    }
    assert IsRun(w, codec, longer) && longer[|longer| - 1] == s';
  }

  lemma PathCons(w: World, codec: Codec, s: State, rest: seq<State>)
    requires IsPath(w, codec, rest) && Step(w, codec, s, rest[0])
    ensures IsPath(w, codec, [s] + rest) && Last([s] + rest) == Last(rest)
  {
    var path := [s] + rest;
    forall i | 0 <= i < |path| - 1 ensures Step(w, codec, path[i], path[i + 1]) {
      if i > 0 {
        assert path[i] == rest[i - 1] && path[i + 1] == rest[i - 1 + 1];
      }
    }
  }

  /** Once either task has returned, at most seven more steps bring the other one to its return. */
  lemma ReturnIsContagious(w: World, codec: Codec, s: State) returns (path: seq<State>)
    requires Reachable(w, codec, s) && (s.frame.FrameReturned? || s.command.CommandReturned?)
    ensures IsPath(w, codec, path) && path[0] == s && BothReturned(Last(path)) && |path| <= 8
  {
    path := HomePath(w, codec, s);
    ReachableInv(w, codec, s);
    WorkIsBounded(w, s);
  }

  lemma WorkIsBounded(w: World, s: State)
    requires Phase(w, s)
    ensures Work(s) <= 7
  {}
}

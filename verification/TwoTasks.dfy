/**
  The two tasks of an ingest connection as a state machine: a frame task that
  owns the socket and a command task that owns the connection state, joined by
  two bounded channels. Every scheduling point is a step of its own.
 */
module TwoTasks {
  import opened Wrappers
  import opened ConnectionStates
  import opened Framing
  import opened FtlCodec
  import opened Interpreter
  import opened StreamDecoder
  import opened Text

  const CAPACITY: nat := 2

  /** Where the frame task is. Reading: in `frame.next()`; Forwarding: sending a command to
      the other task; Awaiting: in `recv()`; Writing: the reversed parts still to be popped and sent. */
  datatype FramePc =
    | Reading
    | Forwarding(command: FtlCommand)
    | Awaiting
    | Writing(stack: seq<string>)
    | FrameReturned

  /** What follows a reply: the loop goes on; the loop goes on but a failed send leaves the
      task at once (the port reply); it leaves either way (the refusal). */
  datatype AfterReply = GoOn | LeaveOnFailure | Leave

  /** Where the command task is. Closing: about to announce the end of the stream;
      Releasing: about to free the port; Returning: has sent the refusal and still holds its channels. */
  datatype CommandPc =
    | Receiving
    | Allocating
    | Replying(parts: seq<string>, after: AfterReply)
    | Closing
    | Releasing
    | Returning
    | CommandReturned

  datatype State = State(
    frame: FramePc,
    command: CommandPc,
    toCommand: seq<FtlCommand>,
    toFrame: seq<seq<string>>,
    conn: ConnectionState,
    buffer: seq<byte>,
    received: seq<byte>,        // every byte that ever arrived
    taken: seq<FtlCommand>,     // every command the decoder yielded
    consumed: seq<FtlCommand>,  // every command the command task received
    out: string,                // everything written to the socket
    leased: seq<nat>,           // the ports allocated
    freed: seq<nat>,            // the ports freed
    notices: seq<string>)       // the stream keys whose end was announced

  const INITIAL: State := State(Reading, Receiving, [], [], NEW, [], [], [], [], "", [], [], [])

  type Codec = Reader<FtlCommand>

  // ---- the frame task ----

  predicate FrameReceives(codec: Codec, s: State, s': State, chunk: seq<byte>) {
    && s.frame.Reading? && DecodeStep(codec, s.buffer).0.None?
    && s' == s.(buffer := s.buffer + chunk, received := s.received + chunk)
  }

  predicate FrameDecodes(codec: Codec, s: State, s': State) {
    && s.frame.Reading?
    && var (r, rest) := DecodeStep(codec, s.buffer);
    && r.Some? && r.value.Command?
    && s' == s.(frame := Forwarding(r.value.command), buffer := rest, taken := s.taken + [r.value.command])
  }

  /** A frame that is not a command, the end of the stream or a socket error. */
  predicate FrameStops(codec: Codec, s: State, s': State) {
    && s.frame.Reading?
    && var r := DecodeStep(codec, s.buffer).0;
    && (r.Some? ==> !r.value.Command?)
    && s' == s.(frame := FrameReturned)
  }

  predicate FrameForwards(s: State, s': State) {
    && s.frame.Forwarding? && !s.command.CommandReturned? && |s.toCommand| < CAPACITY
    && s' == s.(frame := Awaiting, toCommand := s.toCommand + [s.frame.command])
  }

  /** The command task is gone, and the receiving end of its channel with it. */
  predicate FrameForwardFails(s: State, s': State) {
    && s.frame.Forwarding? && s.command.CommandReturned?
    && s' == s.(frame := FrameReturned)
  }

  predicate FrameTakesReply(s: State, s': State) {
    && s.frame.Awaiting? && s.toFrame != []
    && s' == s.(frame := Writing(Reverse(s.toFrame[0])), toFrame := s.toFrame[1..])
  }

  predicate FrameGetsNoReply(s: State, s': State) {
    && s.frame.Awaiting? && s.toFrame == [] && s.command.CommandReturned?
    && s' == s.(frame := FrameReturned)
  }

  predicate FrameWrites(s: State, s': State) {
    && s.frame.Writing? && s.frame.stack != []
    && var last := |s.frame.stack| - 1;
    && s' == s.(frame := Writing(s.frame.stack[..last]), out := s.out + s.frame.stack[last])
  }

  /** The socket accepts only the first `n` characters of the item and then fails. */
  predicate FrameWriteFails(s: State, s': State, n: nat) {
    && s.frame.Writing? && s.frame.stack != []
    && var last := |s.frame.stack| - 1;
    && n <= |s.frame.stack[last]|
    && s' == s.(frame := FrameReturned, out := s.out + s.frame.stack[last][..n])
  }

  predicate FrameIsDoneWriting(s: State, s': State) {
    s.frame == Writing([]) && s' == s.(frame := Reading)
  }

  // ---- the command task ----

  predicate CommandReceives(w: World, s: State, s': State) {
    && s.command.Receiving? && s.toCommand != []
    && var c := s.toCommand[0];
    && var t := s.(toCommand := s.toCommand[1..], consumed := s.consumed + [c]);
    && s' == match c
             case Disconnect => t.(command := Closing)
             case Dot =>
               (match s.conn.rtpPort
                case None => t.(command := Allocating)
                case Some(port) => t.(command := Replying(PortReply(port), LeaveOnFailure)))
             case _ => Handled(t, HandleCommand(c, w.hmac(|s.consumed|), s.conn))
  }

  /** The handler has changed the connection state, and goes on to send its reply if it has one. */
  function Handled(s: State, handled: (ConnectionState, Option<seq<string>>)): State {
    match handled.1
    case None => s.(conn := handled.0)
    case Some(parts) => s.(conn := handled.0, command := Replying(parts, GoOn))
  }

  /** The frame task is gone, and the sending end of its channel with it. */
  predicate CommandHangsUp(s: State, s': State) {
    && s.command.Receiving? && s.toCommand == [] && s.frame.FrameReturned?
    && s' == s.(command := Closing)
  }

  predicate CommandAllocates(w: World, s: State, s': State) {
    && s.command.Allocating? && s.consumed != []
    && s' == match AllocatePort(w.port(|s.consumed| - 1))
             case None => s.(command := Replying(REFUSAL, Leave))
             case Some(port) => s.(command := Replying(PortReply(port), LeaveOnFailure),
                                   conn := s.conn.(rtpPort := Some(port)),
                                   leased := s.leased + [port])
  }

  predicate CommandReplies(s: State, s': State) {
    && s.command.Replying? && !s.frame.FrameReturned? && |s.toFrame| < CAPACITY
    && s' == s.(toFrame := s.toFrame + [s.command.parts],
                command := if s.command.after.Leave? then Returning else Receiving)
  }

  /** The frame task is gone: the send fails, and unless the error is only logged this one leaves without freeing. */
  predicate CommandReplyFails(s: State, s': State) {
    && s.command.Replying? && s.frame.FrameReturned?
    && s' == s.(command := if s.command.after.GoOn? then Receiving else CommandReturned)
  }

  /** Returning drops the receiving end of the channel, with whatever is still in it. */
  predicate CommandLeaves(s: State, s': State) {
    && s.command.Returning?
    && s' == s.(command := CommandReturned, toCommand := [])
  }

  predicate CommandAnnounces(s: State, s': State) {
    && s.command.Closing?
    && s' == s.(command := Releasing,
                notices := if s.conn.streamKey.Some? then s.notices + [s.conn.streamKey.value] else s.notices)
  }

  predicate CommandFrees(s: State, s': State) {
    && s.command.Releasing?
    && s' == s.(command := CommandReturned,
                freed := if s.conn.rtpPort.Some? then s.freed + [s.conn.rtpPort.value] else s.freed)
  }

  ghost predicate FrameStep(codec: Codec, s: State, s': State) {
    || (exists chunk :: FrameReceives(codec, s, s', chunk))
    || FrameDecodes(codec, s, s')
    || FrameStops(codec, s, s')
    || FrameForwards(s, s')
    || FrameForwardFails(s, s')
    || FrameTakesReply(s, s')
    || FrameGetsNoReply(s, s')
    || FrameWrites(s, s')
    || (exists n :: FrameWriteFails(s, s', n))
    || FrameIsDoneWriting(s, s')
  }

  predicate CommandStep(w: World, s: State, s': State) {
    || CommandReceives(w, s, s')
    || CommandHangsUp(s, s')
    || CommandAllocates(w, s, s')
    || CommandReplies(s, s')
    || CommandReplyFails(s, s')
    || CommandLeaves(s, s')
    || CommandAnnounces(s, s')
    || CommandFrees(s, s')
  }

  ghost predicate Step(w: World, codec: Codec, s: State, s': State) {
    FrameStep(codec, s, s') || CommandStep(w, s, s')
  }

  ghost predicate IsPath(w: World, codec: Codec, path: seq<State>) {
    && path != []
    && forall i :: 0 <= i < |path| - 1 ==> Step(w, codec, path[i], path[i + 1])
  }

  /** A schedule of the two tasks, from a fresh connection. */
  ghost predicate IsRun(w: World, codec: Codec, run: seq<State>) {
    IsPath(w, codec, run) && run[0] == INITIAL
  }

  /** A state some schedule leads to. */
  ghost predicate Reachable(w: World, codec: Codec, s: State) {
    exists run :: IsRun(w, codec, run) && run[|run| - 1] == s
  }
}

/**
  How a connection comes by a port, and how two of them can come by the same one:
  the assumption about readers in PortOwnership cannot be dropped.
 */
module PortSharing {
  import opened Wrappers
  import opened CommandSyntax
  import opened FtlCodec
  import opened Framing
  import opened Interpreter
  import opened PortClaims
  import opened PortOwnership
  import opened StreamDecoder
  import opened RegistryTheorems
  import R = RegistryMachine
  import T = TwoTasks

  lemma StepExtends(ws: Worlds, codec: T.Codec, s: State, s': State)
    requires Reachable(ws, codec, s) && Step(ws, codec, s, s')
    ensures Reachable(ws, codec, s')
  {
    var run :| IsRun(ws, codec, run) && run[|run| - 1] == s;
    var longer := run + [s'];
    forall i | 0 <= i < |longer| - 1 ensures Step(ws, codec, longer[i], longer[i + 1]) {
      if i < |run| - 1 {
        assert Step(ws, codec, run[i], run[i + 1]);
      }
    }
    assert IsRun(ws, codec, longer);
  }

  lemma NeverPanicked(ws: Worlds, codec: T.Codec, s: State)
    requires Reachable(ws, codec, s)
    ensures !s.registry.panicked
  {
    ReachableInv(ws, codec, s);
  }

  ghost predicate OwnStep(w: World, codec: T.Codec, t: T.State, t': T.State) {
    T.FrameStep(codec, t, t') || (T.CommandStep(w, t, t') && !CallsServer(t))
  }

  lemma StepInside(ws: Worlds, codec: T.Codec, s: State, c: ConnId, t: T.State, t': T.State)
    requires Reachable(ws, codec, With(s, c, t)) && OwnStep(ws(c), codec, t, t')
    ensures Reachable(ws, codec, With(s, c, t'))
  {
    NeverPanicked(ws, codec, With(s, c, t));
    assert s.conns[c := t][c := t'] == s.conns[c := t'];
    assert Internal(ws, codec, With(s, c, t), With(s, c, t'), c, t');
    StepExtends(ws, codec, With(s, c, t), With(s, c, t'));
  }

  function With(s: State, c: ConnId, t: T.State): State {
    s.(conns := s.conns[c := t])
  }

  lemma StepOfServer(ws: Worlds, codec: T.Codec, s: State, id: nat, r: R.State) returns (s': State)
    requires Reachable(ws, codec, s) && R.ProcessStep(s.registry, r, id)
    ensures s' == s.(registry := r, disturbed := s'.disturbed) && Reachable(ws, codec, s')
  {
    s' := s.(registry := r, disturbed := s.disturbed + Afflicted(s, r));
    NeverPanicked(ws, codec, s);
    assert ServerWorks(s, s', id);
    StepExtends(ws, codec, s, s');
  }

  lemma StepOfNewcomer(ws: Worlds, codec: T.Codec, s: State, c: ConnId)
    requires Reachable(ws, codec, s) && c !in s.conns
    ensures Reachable(ws, codec, With(s, c, T.INITIAL)) && !Asking(s, c)
  {
    ReachableInv(ws, codec, s);
    assert Connects(s, With(s, c, T.INITIAL), c);
    StepExtends(ws, codec, s, With(s, c, T.INITIAL));
  }

  /** The bytes of a frame that is a dot. */
  predicate IsDot(codec: T.Codec, bytes: seq<byte>) {
    DecodeStep(codec, []).0.None? && DecodeStep(codec, bytes).0 == Some(Command(Dot))
  }

  /** A connection whose frame task has just decoded a dot. */
  function Decoded(codec: T.Codec, dot: seq<byte>): T.State
    requires IsDot(codec, dot)
  {
    T.INITIAL.(frame := T.Forwarding(Dot), buffer := DecodeStep(codec, dot).1, received := dot, taken := [Dot])
  }

  /** A connection whose only command so far is the dot, and whose command task asks for a port. */
  function Dialled(codec: T.Codec, dot: seq<byte>): T.State
    requires IsDot(codec, dot)
  {
    T.INITIAL.(frame := T.Awaiting, command := T.Allocating, buffer := DecodeStep(codec, dot).1, received := dot,
               taken := [Dot], consumed := [Dot])
  }

  lemma ReadsDot(w: World, codec: T.Codec, dot: seq<byte>) returns (t1: T.State, t2: T.State)
    requires IsDot(codec, dot)
    ensures OwnStep(w, codec, T.INITIAL, t1) && OwnStep(w, codec, t1, t2)
    ensures t2 == Decoded(codec, dot)
  {
    assert [] + dot == dot;
    t1 := T.INITIAL.(buffer := dot, received := dot);
    assert T.FrameReceives(codec, T.INITIAL, t1, dot);
    t2 := t1.(frame := T.Forwarding(Dot), buffer := DecodeStep(codec, dot).1, taken := [Dot]);
    assert T.FrameDecodes(codec, t1, t2);
  }

  lemma AsksForPort(w: World, codec: T.Codec, dot: seq<byte>, t2: T.State) returns (t3: T.State)
    requires IsDot(codec, dot)
    requires t2 == Decoded(codec, dot)
    ensures OwnStep(w, codec, t2, t3) && OwnStep(w, codec, t3, Dialled(codec, dot))
  {
    t3 := t2.(frame := T.Awaiting, toCommand := [Dot]);
    assert T.FrameForwards(t2, t3);
    assert T.CommandReceives(w, t3, Dialled(codec, dot));
  }

  lemma Dials(ws: Worlds, codec: T.Codec, s: State, c: ConnId, dot: seq<byte>)
    requires Reachable(ws, codec, s) && c !in s.conns && IsDot(codec, dot)
    ensures Reachable(ws, codec, With(s, c, Dialled(codec, dot))) && !Asking(s, c)
  {
    var t1, t2 := ReadsDot(ws(c), codec, dot);
    var t3 := AsksForPort(ws(c), codec, dot, t2);
    StepOfNewcomer(ws, codec, s, c);
    StepInside(ws, codec, s, c, T.INITIAL, t1);
    StepInside(ws, codec, s, c, t1, t2);
    StepInside(ws, codec, s, c, t2, t3);
    StepInside(ws, codec, s, c, t3, Dialled(codec, dot));
  }

  /** The stream is made and registered for the waiting request. */
  lemma ServerCreates(ws: Worlds, codec: T.Codec, s: State, id: nat, st: R.StreamId, port: R.Port) returns (s': State)
    requires Reachable(ws, codec, s)
    requires id in s.registry.processes && s.registry.processes[id] == R.Create(R.Listening(0))
    requires 0 < port <= R.MAX_PORT && port !in s.registry.bound && st !in s.registry.portOf
    ensures Reachable(ws, codec, s') && OnlyServer(s, s')
    ensures Made(s.registry, s'.registry, id, st, port)
  {
    var r1, r2, r3 := Makes(s.registry, id, st, port);
    var s1 := StepOfServer(ws, codec, s, id, r1);
    var s2 := StepOfServer(ws, codec, s1, id, r2);
    s' := StepOfServer(ws, codec, s2, id, r3);
  }

  lemma Posts(ws: Worlds, codec: T.Codec, s: State, c: ConnId, id: nat) returns (s': State)
    requires Reachable(ws, codec, s) && c in s.conns && s.conns[c].command.Allocating? && !Asking(s, c)
    requires id !in s.registry.processes
    ensures s' == s.(registry := R.Goes(s.registry, id, R.Create(R.Listening(0))), askers := s.askers[id := c])
    ensures Reachable(ws, codec, s')
  {
    s' := s.(registry := R.Goes(s.registry, id, R.Create(R.Listening(0))), askers := s.askers[id := c]);
    NeverPanicked(ws, codec, s);
    assert PostSent(s, s', c, id);
    StepExtends(ws, codec, s, s');
  }

  /** Dialled, with the port it asked for. */
  function Leasing(codec: T.Codec, dot: seq<byte>, port: R.Port): (t: T.State)
    requires IsDot(codec, dot)
    ensures Streaming(t) && t.conn.rtpPort == Some(port)
  {
    var t := Dialled(codec, dot);
    t.(command := T.Replying(PortReply(port), T.LeaveOnFailure),
       conn := t.conn.(rtpPort := Some(port)), leased := [port])
  }

  lemma Leases(w: World, codec: T.Codec, dot: seq<byte>, port: R.Port)
    requires IsDot(codec, dot) && port <= R.MAX_PORT && w.port(0) == Some(port)
    ensures T.CommandAllocates(w, Dialled(codec, dot), Leasing(codec, dot, port))
  {
    PortSurvivesCast(port);
  }

  lemma IsAnswered(ws: Worlds, codec: T.Codec, s: State, c: ConnId, dot: seq<byte>,
                   id: nat, st: R.StreamId, port: R.Port) returns (s': State)
    requires Reachable(ws, codec, s) && IsDot(codec, dot) && ws(c).port(0) == Some(port) && port <= R.MAX_PORT
    requires c in s.conns && s.conns[c] == Dialled(codec, dot) && id in s.askers && s.askers[id] == c
    requires id in s.registry.processes && s.registry.processes[id] == R.Create(R.Created(st))
    requires st in s.registry.portOf && s.registry.portOf[st] == port
    ensures s' == s.(registry := s.registry.(processes := s.registry.processes - {id}),
                     conns := s.conns[c := Leasing(codec, dot, port)],
                     askers := s.askers - {id}, owner := s.owner[c := st])
    ensures Reachable(ws, codec, s')
  {
    s' := s.(registry := s.registry.(processes := s.registry.processes - {id}),
             conns := s.conns[c := Leasing(codec, dot, port)],
             askers := s.askers - {id}, owner := s.owner[c := st]);
    NeverPanicked(ws, codec, s);
    Leases(ws(c), codec, dot, port);
    assert PostAnswered(ws, s, s', c, id, Leasing(codec, dot, port));
    StepExtends(ws, codec, s, s');
  }

  lemma IsServed(ws: Worlds, codec: T.Codec, s: State, c: ConnId, dot: seq<byte>,
                 id: nat, st: R.StreamId, port: R.Port) returns (s': State)
    requires Reachable(ws, codec, s) && IsDot(codec, dot) && ws(c).port(0) == Some(port)
    requires c in s.conns && s.conns[c] == Dialled(codec, dot) && id in s.askers && s.askers[id] == c
    requires id in s.registry.processes && s.registry.processes[id] == R.Create(R.Listening(0))
    requires 0 < port <= R.MAX_PORT && port !in s.registry.bound && st !in s.registry.portOf
    ensures Reachable(ws, codec, s')
    ensures s'.conns == s.conns[c := Leasing(codec, dot, port)] && s'.registry.processes == s.registry.processes - {id}
    ensures s'.registry.bound == s.registry.bound[port := st] && s'.registry.portOf == s.registry.portOf[st := port]
    ensures st in s'.registry.inserted && s'.registry.failedReaders == s.registry.failedReaders
  {
    var s1 := ServerCreates(ws, codec, s, id, st, port);
    s' := IsAnswered(ws, codec, s1, c, dot, id, st, port);
    assert s'.registry.processes == s.registry.processes - {id};
  }

  lemma Requests(ws: Worlds, codec: T.Codec, s: State, c: ConnId, dot: seq<byte>, id: nat) returns (s': State)
    requires Reachable(ws, codec, s) && c !in s.conns && IsDot(codec, dot) && id !in s.registry.processes
    ensures Reachable(ws, codec, s')
    ensures s'.conns == s.conns[c := Dialled(codec, dot)] && id in s'.askers && s'.askers[id] == c
    ensures s'.registry.processes == s.registry.processes[id := R.Create(R.Listening(0))]
    ensures s'.registry.bound == s.registry.bound && s'.registry.portOf == s.registry.portOf
    ensures s'.registry.failedReaders == s.registry.failedReaders
  {
    Dials(ws, codec, s, c, dot);
    s' := Posts(ws, codec, With(s, c, Dialled(codec, dot)), c, id);
  }

  /** Any connection can get any port that is not bound. */
  lemma ConnectionGetsPort(ws: Worlds, codec: T.Codec, s: State, c: ConnId, dot: seq<byte>,
                           id: nat, st: R.StreamId, port: R.Port) returns (s': State)
    requires Reachable(ws, codec, s) && c !in s.conns && IsDot(codec, dot) && ws(c).port(0) == Some(port)
    requires id !in s.registry.processes
    requires 0 < port <= R.MAX_PORT && port !in s.registry.bound && st !in s.registry.portOf
    ensures Reachable(ws, codec, s')
    ensures s'.conns == s.conns[c := Leasing(codec, dot, port)] && s'.registry.processes == s.registry.processes
    ensures s'.registry.bound == s.registry.bound[port := st] && s'.registry.portOf == s.registry.portOf[st := port]
    ensures st in s'.registry.inserted && s'.registry.failedReaders == s.registry.failedReaders
  {
    var s2 := Requests(ws, codec, s, c, dot, id);
    s' := IsServed(ws, codec, s2, c, dot, id, st, port);
    assert s.registry.processes[id := R.Create(R.Listening(0))] - {id} == s.registry.processes;
  }

  lemma FailsReading(ws: Worlds, codec: T.Codec, s: State, st: R.StreamId) returns (s': State)
    requires Reachable(ws, codec, s) && st in s.registry.inserted && st in s.registry.portOf
    requires s.registry.portOf[st] in s.registry.bound && s.registry.bound[s.registry.portOf[st]] == st
    ensures Reachable(ws, codec, s')
    ensures s'.conns == s.conns
    ensures s'.registry.processes == s.registry.processes && s'.registry.portOf == s.registry.portOf
    ensures s.registry.portOf[st] !in s'.registry.bound
  {
    s' := s.(registry := R.CloseSocket(s.registry, st).(failedReaders := s.registry.failedReaders + {st}),
             disturbed := s.disturbed + {st});
    NeverPanicked(ws, codec, s);
    assert ReaderFails(s, s', st);
    StepExtends(ws, codec, s, s');
  }

  // ---- with the codec's own bytes ----

  /** A dot and the delimiter. */
  const DOT: seq<byte> := [46, 13, 10, 13, 10]

  lemma DotIsDot(utf8: Utf8)
    requires ReadsAscii(utf8)
    ensures IsDot(Frame(utf8), DOT)
  {
    assert Ascii(".") && Bytes(".") == [46] && DOT == [46] + DELIMITER + [];
    FirstDelimiterOfFramed([46], []);
    assert DOT[..1] == [46] && utf8(Bytes(".")) == ".";
    DotRoundTrip();
  }

  /** While a connection streams to a port that is not bound, its stream is disturbed, and the next
      connection to send a dot can come to stream to the same port, with no further reader failing. */
  lemma FreePortIsShared(ws: Worlds, utf8: Utf8, s: State, c: ConnId, d: ConnId) returns (s': State)
    requires ReadsAscii(utf8) && Reachable(ws, Frame(utf8), s) && c in s.conns && Streaming(s.conns[c]) && d !in s.conns
    requires var port := s.conns[c].conn.rtpPort.value; port !in s.registry.bound && ws(d).port(0) == Some(port)
    ensures c in s.owner && s.owner[c] in s.disturbed
    ensures Reachable(ws, Frame(utf8), s') && s'.registry.failedReaders == s.registry.failedReaders
    ensures d in s'.conns && s'.conns == s.conns[d := s'.conns[d]] && Streaming(s'.conns[d])
    ensures s'.conns[d].conn.rtpPort == s.conns[c].conn.rtpPort
  {
    var port := s.conns[c].conn.rtpPort.value;
    PortServesItsConnection(ws, Frame(utf8), s, c);
    PortInRange(ws, Frame(utf8), s, c);
    DotIsDot(utf8);
    var id := UpperBound(s.registry.processes.Keys);
    var st := UpperBound(s.registry.portOf.Keys);
    s' := ConnectionGetsPort(ws, Frame(utf8), s, d, DOT, id, st, port);
  }

  lemma PortInRange(ws: Worlds, codec: T.Codec, s: State, c: ConnId)
    requires Reachable(ws, codec, s) && c in s.conns && s.conns[c].conn.rtpPort.Some?
    ensures 0 < s.conns[c].conn.rtpPort.value <= R.MAX_PORT
  {
    ReachableInv(ws, codec, s);
  }

  /** One such run: a reader gives up on its open socket, and two connections stream to one port. */
  lemma FailedReaderSharesPort(ws: Worlds, utf8: Utf8, port: R.Port) returns (s: State)
    requires ReadsAscii(utf8) && 0 < port <= R.MAX_PORT && ws(0).port(0) == Some(port) && ws(1).port(0) == Some(port)
    ensures Reachable(ws, Frame(utf8), s) && 0 in s.conns && 1 in s.conns && Streaming(s.conns[0])
        && Streaming(s.conns[1])
    ensures s.conns[0].conn.rtpPort == s.conns[1].conn.rtpPort == Some(port)
  {
    DotIsDot(utf8);
    assert IsRun(ws, Frame(utf8), [INITIAL]);
    var s1 := ConnectionGetsPort(ws, Frame(utf8), INITIAL, 0, DOT, 0, 0, port);
    var s2 := FailsReading(ws, Frame(utf8), s1, 0);
    s := FreePortIsShared(ws, utf8, s2, 0, 1);
  }
}

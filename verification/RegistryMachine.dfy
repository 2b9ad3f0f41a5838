/**
  The stream registry under concurrent requests: every create and delete request is
  a process that takes its steps one at a time. Access to the map is under a mutex, so
  the map operations of a request are one step each.
 */
module RegistryMachine {
  type Port = nat
  type StreamId = nat

  /** A create request: about to listen, listening, about to insert, answered. */
  datatype CreatePc =
    | Listening(want: Port) | Bound(st: StreamId) | Inserting(st: StreamId) | Created(st: StreamId) | Failed

  /** A delete request: about to look the port up, about to close the socket, to test the hub's done channel,
      to close it, answered. */
  datatype DeletePc =
    | Looking(port: Port) | ConnClosing(st: StreamId) | HubTesting(st: StreamId) | HubClosing(st: StreamId) | Deleted

  datatype Process = Create(create: CreatePc) | Delete(delete: DeletePc)

  datatype State = State(
    streams: map<Port, StreamId>,
    portOf: map<StreamId, Port>,      // every stream that ever got a socket
    bound: map<Port, StreamId>,       // the ports that are bound, and by whose socket
    inserted: set<StreamId>,          // streams that made it into the map; their readers run
    hubDone: set<StreamId>,           // streams whose hub was told to stop
    processes: map<nat, Process>,
    panicked: bool,                   // a second close of a done channel
    failedReaders: set<StreamId>,     // readers that gave up on a socket nobody had closed
    overwritten: set<StreamId>)       // streams whose entry another stream replaced

  const INITIAL: State := State(map[], map[], map[], {}, {}, map[], false, {}, {})

  const MAX_PORT: nat := 65535

  /** The socket is closed: its port is free again. Closing twice changes nothing. */
  function CloseSocket(s: State, st: StreamId): State {
    if st in s.portOf && s.portOf[st] in s.bound && s.bound[s.portOf[st]] == st then
      s.(bound := s.bound - {s.portOf[st]})
    else s
  }

  function Goes(s: State, id: nat, p: Process): State {
    s.(processes := s.processes[id := p])
  }

  // ---- create ----

  /** Port 0 lets the system choose any free port. */
  predicate Listens(s: State, s': State, id: nat, st: StreamId, port: Port) {
    && id in s.processes && s.processes[id].Create? && s.processes[id].create.Listening?
    && 0 < port <= MAX_PORT && (s.processes[id].create.want == 0 || s.processes[id].create.want == port)
    && port !in s.bound && st !in s.portOf
    && s' == Goes(s.(portOf := s.portOf[st := port], bound := s.bound[port := st]), id, Create(Bound(st)))
  }

  predicate ListenFails(s: State, s': State, id: nat) {
    && id in s.processes && s.processes[id].Create? && s.processes[id].create.Listening?
    && s' == Goes(s, id, Create(Failed))
  }

  predicate TracksMade(s: State, s': State, id: nat) {
    && id in s.processes && s.processes[id].Create? && s.processes[id].create.Bound?
    && s' == Goes(s, id, Create(Inserting(s.processes[id].create.st)))
  }

  predicate TracksFail(s: State, s': State, id: nat) {
    && id in s.processes && s.processes[id].Create? && s.processes[id].create.Bound?
    && s' == Goes(CloseSocket(s, s.processes[id].create.st), id, Create(Failed))
  }

  predicate Inserts(s: State, s': State, id: nat) {
    && id in s.processes && s.processes[id].Create? && s.processes[id].create.Inserting?
    && var st := s.processes[id].create.st;
    && st in s.portOf
    && var port := s.portOf[st];
    && s' == Goes(s.(streams := s.streams[port := st], inserted := s.inserted + {st},
                     overwritten := s.overwritten + if port in s.streams then {s.streams[port]} else {}),
                  id, Create(Created(st)))
  }

  // ---- delete ----

  predicate LooksUp(s: State, s': State, id: nat) {
    && id in s.processes && s.processes[id].Delete? && s.processes[id].delete.Looking?
    && var port := s.processes[id].delete.port;
    && s' == if port in s.streams
             then Goes(s.(streams := s.streams - {port}), id, Delete(ConnClosing(s.streams[port])))
             else Goes(s, id, Delete(Deleted))
  }

  predicate ClosesConn(s: State, s': State, id: nat) {
    && id in s.processes && s.processes[id].Delete? && s.processes[id].delete.ConnClosing?
    && var st := s.processes[id].delete.st;
    && s' == Goes(CloseSocket(s, st), id, Delete(HubTesting(st)))
  }

  /** Testing whether done is closed and closing it are two steps. */
  predicate TestsHub(s: State, s': State, id: nat) {
    && id in s.processes && s.processes[id].Delete? && s.processes[id].delete.HubTesting?
    && var st := s.processes[id].delete.st;
    && s' == Goes(s, id, Delete(if st in s.hubDone then Deleted else HubClosing(st)))
  }

  predicate ClosesHub(s: State, s': State, id: nat) {
    && id in s.processes && s.processes[id].Delete? && s.processes[id].delete.HubClosing?
    && var st := s.processes[id].delete.st;
    && s' == if st in s.hubDone then s.(panicked := true)
             else Goes(s.(hubDone := s.hubDone + {st}), id, Delete(Deleted))
  }

  // ---- requests and readers ----

  predicate CreateStarts(s: State, s': State, id: nat, want: Port) {
    id !in s.processes && s' == Goes(s, id, Create(Listening(want)))
  }

  predicate DeleteStarts(s: State, s': State, id: nat, port: Port) {
    id !in s.processes && s' == Goes(s, id, Delete(Looking(port)))
  }

  predicate Answered(p: Process) {
    match p
    case Create(pc) => pc.Created? || pc.Failed?
    case Delete(pc) => pc.Deleted?
  }

  predicate RequestEnds(s: State, s': State, id: nat) {
    && id in s.processes && Answered(s.processes[id])
    && s' == s.(processes := s.processes - {id})
  }

  /** A read error on an open socket ends the reader, which closes the socket on its way out. */
  predicate ReaderFails(s: State, s': State, st: StreamId) {
    && st in s.inserted && st in s.portOf && s.portOf[st] in s.bound && s.bound[s.portOf[st]] == st
    && s' == CloseSocket(s, st).(failedReaders := s.failedReaders + {st})
  }

  ghost predicate ProcessStep(s: State, s': State, id: nat) {
    || (exists st, port :: Listens(s, s', id, st, port))
    || ListenFails(s, s', id)
    || TracksMade(s, s', id)
    || TracksFail(s, s', id)
    || Inserts(s, s', id)
    || LooksUp(s, s', id)
    || ClosesConn(s, s', id)
    || TestsHub(s, s', id)
    || ClosesHub(s, s', id)
  }

  ghost predicate Step(s: State, s': State) {
    && !s.panicked
    && (|| (exists id :: ProcessStep(s, s', id))
        || (exists id, want :: CreateStarts(s, s', id, want))
        || (exists id, port :: DeleteStarts(s, s', id, port))
        || (exists id :: RequestEnds(s, s', id))
        || (exists st :: ReaderFails(s, s', st)))
  }

  ghost predicate IsRun(run: seq<State>) {
    && run != [] && run[0] == INITIAL
    && forall i :: 0 <= i < |run| - 1 ==> Step(run[i], run[i + 1])
  }

  ghost predicate Reachable(s: State) {
    exists run :: IsRun(run) && run[|run| - 1] == s
  }
}

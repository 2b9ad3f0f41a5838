/**
  The hub and the goroutines around it as a state machine: the Run loop with one
  program counter per lock operation, direct senders, announcing goroutines,
  registering handlers and the clients' write loops.
 */
module HubMachine {
  import opened AtomicHub

  /** Where Run is. `Want`: about to ask for a lock; `Wait`: has announced a write lock and waits
      for readers; `Held`: holds the lock it asked for. */
  datatype RunPc =
    | Select
    | RegWant(c: Client) | RegWait(c: Client) | RegHeld(c: Client) | RegUnlock(c: Client)
    | InfoWant | InfoHeld | InfoRelease(n: nat) | InfoSpawn(n: nat)
    | UnregWant(c: Client) | UnregHeld(c: Client) | UnregRelease(c: Client, found: bool)
    | DelWant(c: Client) | DelWait(c: Client) | DelHeld(c: Client) | DelUnlock(c: Client)
    | CloseSend(c: Client)
    | CastWant(m: Message) | CastLoop(m: Message, todo: set<Client>)
    | CastSend(m: Message, c: Client, todo: set<Client>)
    | DoneWant | DoneWait | DoneLoop | DoneDelete(c: Client)
    | RunReturned

  /** A goroutine that sends one message to one client if the client is registered. */
  datatype SenderPc =
    | Wanting(c: Client, m: Message)
    | Checking(c: Client, m: Message)
    | Sending(c: Client, m: Message)
    | Releasing

  datatype Holder = RunHolder | SenderHolder(g: nat)

  /** The read-write lock; a pending writer keeps new readers out. */
  datatype Lock = Lock(readers: set<Holder>, writer: bool, pending: bool)

  datatype Event = Admitted(c: Client) | Removed(c: Client)

  datatype State = State(
    run: RunPc,
    lock: Lock,
    clients: set<Client>,
    closed: set<Client>,          // clients whose Send channel is closed
    log: Log,                     // what each client's write loop received
    register: seq<Client>,        // the channels, buffered with capacity 1
    unregister: seq<Client>,
    connecting: set<Client>,      // created, Register not yet sent
    sent: set<Client>,            // Register sent
    listening: set<Client>,       // write loop still receiving
    senders: map<nat, SenderPc>,
    infos: multiset<nat>,         // goroutines waiting to send an info message on Broadcast
    done: bool,
    panicked: bool,               // a send on or a second close of a closed channel
    consumed: set<Client>,        // history: received from Register
    events: seq<Event>,           // history: admissions and effective removals
    taken: seq<nat>)              // history: info messages received from Broadcast

  const CAPACITY: nat := 1

  const INITIAL: State :=
    State(Select, Lock({}, false, false), {}, {}, map[], [], [], {}, {}, {}, map[], multiset{},
          false, false, {}, [], [])

  // ---- locks ----

  predicate CanRead(l: Lock) {
    !l.writer && !l.pending
  }

  function ReadLocked(l: Lock, h: Holder): Lock {
    l.(readers := l.readers + {h})
  }

  function ReadUnlocked(l: Lock, h: Holder): Lock {
    l.(readers := l.readers - {h})
  }

  /** Run takes a read lock and goes to `pc`. */
  predicate RunReads(s: State, s': State, pc: RunPc) {
    CanRead(s.lock) && s' == s.(run := pc, lock := ReadLocked(s.lock, RunHolder))
  }

  function RunReadUnlocks(s: State, pc: RunPc): State {
    s.(run := pc, lock := ReadUnlocked(s.lock, RunHolder))
  }

  function RunAnnounces(s: State, pc: RunPc): State {
    s.(run := pc, lock := s.lock.(pending := true))
  }

  predicate RunWrites(s: State, s': State, pc: RunPc) {
    s.lock.readers == {} && s' == s.(run := pc, lock := s.lock.(writer := true, pending := false))
  }

  function RunWriteUnlocks(s: State, pc: RunPc): State {
    s.(run := pc, lock := s.lock.(writer := false))
  }

  // ---- channels ----

  predicate SomeoneSendsTo(s: State, c: Client) {
    exists g | g in s.senders :: s.senders[g].Sending? && s.senders[g].c == c
  }

  /** Closing a client's channel: a second close panics, and so does a goroutine caught sending on it. */
  function Close(s: State, c: Client): State {
    if c in s.closed || SomeoneSendsTo(s, c) then s.(panicked := true)
    else s.(closed := s.closed + {c})
  }

  /** Sending on a client's channel: panics if it is closed, and else waits for the write loop. */
  predicate Delivers(s: State, t: State, c: Client, m: Message) {
    if c in s.closed then t == s.(panicked := true)
    else c in s.listening && t == s.(log := Append(s.log, c, m))
  }

  // ---- Run ----

  predicate RunRegisters(s: State, s': State) {
    && s.run.Select? && s.register != []
    && var c := s.register[0];
    && s' == s.(run := RegWant(c), register := s.register[1..], consumed := s.consumed + {c})
  }

  predicate RunUnregisters(s: State, s': State) {
    && s.run.Select? && s.unregister != []
    && s' == s.(run := UnregWant(s.unregister[0]), unregister := s.unregister[1..])
  }

  predicate RunBroadcasts(s: State, s': State, n: nat) {
    && s.run.Select? && n in s.infos
    && s' == s.(run := CastWant(Info(n)), infos := s.infos - multiset{n}, taken := s.taken + [n])
  }

  predicate RunShutsDown(s: State, s': State) {
    s.run.Select? && s.done && s' == s.(run := DoneWant)
  }

  predicate RunRegisterBranch(s: State, s': State) {
    match s.run
    case RegWant(c) => s' == RunAnnounces(s, RegWait(c))
    case RegWait(c) => RunWrites(s, s', RegHeld(c))
    case RegHeld(c) =>
      s' == s.(run := RegUnlock(c), clients := s.clients + {c}, events := s.events + [Admitted(c)])
    case RegUnlock(c) => s' == RunWriteUnlocks(s, InfoWant)
    case _ => false
  }

  /** Counting the clients and spawning the announcement; the number is fixed before the goroutine starts. */
  predicate RunInfoBranch(s: State, s': State) {
    match s.run
    case InfoWant => RunReads(s, s', InfoHeld)
    case InfoHeld => s' == s.(run := InfoRelease(|s.clients|))
    case InfoRelease(n) => s' == RunReadUnlocks(s, InfoSpawn(n))
    case InfoSpawn(n) => s' == s.(run := Select, infos := s.infos + multiset{n})
    case _ => false
  }

  predicate RunUnregisterBranch(s: State, s': State) {
    match s.run
    case UnregWant(c) => RunReads(s, s', UnregHeld(c))
    case UnregHeld(c) => s' == s.(run := UnregRelease(c, c in s.clients))
    case UnregRelease(c, found) => s' == RunReadUnlocks(s, if found then DelWant(c) else Select)
    case _ => false
  }

  predicate RunDeleteBranch(s: State, s': State) {
    match s.run
    case DelWant(c) => s' == RunAnnounces(s, DelWait(c))
    case DelWait(c) => RunWrites(s, s', DelHeld(c))
    case DelHeld(c) =>
      s' == s.(run := DelUnlock(c), clients := s.clients - {c}, events := s.events + [Removed(c)])
    case DelUnlock(c) => s' == RunWriteUnlocks(s, CloseSend(c))
    case CloseSend(c) => s' == Close(s, c).(run := InfoWant)
    case _ => false
  }

  predicate RunCastBranch(s: State, s': State) {
    match s.run
    case CastWant(m) => RunReads(s, s', CastLoop(m, s.clients))
    case CastLoop(m, todo) =>
      if todo == {} then s' == RunReadUnlocks(s, Select)
      else s'.run.CastSend? && s'.run.c in todo && s' == s.(run := CastSend(m, s'.run.c, todo - {s'.run.c}))
    case CastSend(m, c, todo) => Delivers(s, s'.(run := s.run), c, m) && s'.run == CastLoop(m, todo)
    case _ => false
  }

  predicate RunDoneBranch(s: State, s': State) {
    match s.run
    case DoneWant => s' == RunAnnounces(s, DoneWait)
    case DoneWait => RunWrites(s, s', DoneLoop)
    case DoneLoop =>
      if s.clients == {} then s' == RunWriteUnlocks(s, RunReturned)
      else s'.run.DoneDelete? && s'.run.c in s.clients && s' == Close(s, s'.run.c).(run := s'.run)
    case DoneDelete(c) => s' == s.(run := DoneLoop, clients := s.clients - {c})
    case _ => false
  }

  ghost predicate RunSelects(s: State, s': State) {
    || RunRegisters(s, s')
    || RunUnregisters(s, s')
    || (exists n :: RunBroadcasts(s, s', n))
    || RunShutsDown(s, s')
  }

  predicate RunInBranch(s: State, s': State) {
    || RunRegisterBranch(s, s')
    || RunInfoBranch(s, s')
    || RunUnregisterBranch(s, s')
    || RunDeleteBranch(s, s')
    || RunCastBranch(s, s')
    || RunDoneBranch(s, s')
  }

  // ---- senders ----

  predicate SenderStep(s: State, s': State, g: nat) {
    && g in s.senders
    && match s.senders[g]
       case Wanting(c, m) =>
         CanRead(s.lock)
         && s' == s.(senders := s.senders[g := Checking(c, m)], lock := ReadLocked(s.lock, SenderHolder(g)))
       case Checking(c, m) =>
         s' == s.(senders := s.senders[g := if c in s.clients then Sending(c, m) else Releasing])
       case Sending(c, m) =>
         Delivers(s, s'.(senders := s.senders), c, m) && s'.senders == s.senders[g := Releasing]
       case Releasing =>
         s' == s.(senders := s.senders - {g}, lock := ReadUnlocked(s.lock, SenderHolder(g)))
  }

  // ---- everyone else ----

  predicate ClientConnects(s: State, s': State, c: Client) {
    && c !in s.connecting && c !in s.sent
    && s' == s.(connecting := s.connecting + {c}, listening := s.listening + {c})
  }

  predicate RegisterSent(s: State, s': State, c: Client) {
    && c in s.connecting && |s.register| < CAPACITY
    && s' == s.(connecting := s.connecting - {c}, sent := s.sent + {c}, register := s.register + [c])
  }

  /** From the end of the read loop or a connection-state callback, any number of times. */
  predicate UnregisterSent(s: State, s': State, c: Client) {
    c in s.sent && |s.unregister| < CAPACITY && s' == s.(unregister := s.unregister + [c])
  }

  predicate WriteLoopExits(s: State, s': State, c: Client) {
    c in s.listening && s' == s.(listening := s.listening - {c})
  }

  /** The handler with its offer, or a callback with a candidate. */
  predicate SenderStarts(s: State, s': State, g: nat, c: Client, m: Message) {
    && g !in s.senders && c in s.sent && m.Signal?
    && s' == s.(senders := s.senders[g := Wanting(c, m)])
  }

  predicate HubCloses(s: State, s': State) {
    s' == s.(done := true)
  }

  ghost predicate OutsideStep(s: State, s': State) {
    || (exists c :: ClientConnects(s, s', c))
    || (exists c :: RegisterSent(s, s', c))
    || (exists c :: UnregisterSent(s, s', c))
    || (exists c :: WriteLoopExits(s, s', c))
    || (exists g, c, m :: SenderStarts(s, s', g, c, m))
    || HubCloses(s, s')
  }

  ghost predicate RunStep(s: State, s': State) {
    RunSelects(s, s') || RunInBranch(s, s')
  }

  ghost predicate Step(s: State, s': State) {
    && !s.panicked
    && (RunStep(s, s') || (exists g :: SenderStep(s, s', g)) || OutsideStep(s, s'))
  }

  ghost predicate IsPath(path: seq<State>) {
    path != [] && forall i :: 0 <= i < |path| - 1 ==> Step(path[i], path[i + 1])
  }

  ghost predicate IsRun(run: seq<State>) {
    IsPath(run) && run[0] == INITIAL
  }

  ghost predicate Reachable(s: State) {
    exists run :: IsRun(run) && run[|run| - 1] == s
  }
}

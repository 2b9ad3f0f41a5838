/**
  Any number of ingest connections against one stream registry: the command task's
  requests to allocate and to free a port are create and delete requests there.

  Requests are answered in the end and only connections delete; streams may also be created by others.
  The machine and what it keeps whether or not a reader fails; PortClaims has the rest.
 */
module PortOwnership {
  import opened Wrappers
  import opened Interpreter
  import opened RegistryInvariant
  import LockStep
  import R = RegistryMachine
  import T = TwoTasks

  type ConnId = nat

  datatype State = State(
    registry: R.State,
    conns: map<ConnId, T.State>,
    askers: map<nat, ConnId>,              // the connection each pending request belongs to
    owner: map<ConnId, R.StreamId>,        // the stream created for each connection
    disturbed: set<R.StreamId>)            // history: streams hit by the failure of a reader

  const INITIAL: State := State(R.INITIAL, map[], map[], map[], {})

  type Worlds = ConnId -> World

  /** The command task is inside a call to the stream server. */
  predicate CallsServer(t: T.State) {
    t.command.Allocating? || (t.command.Releasing? && t.conn.rtpPort.Some?)
  }

  predicate Asking(s: State, c: ConnId) {
    exists id :: id in s.askers && s.askers[id] == c
  }

  /** The connection's delete request has been looked up. */
  predicate GaveUp(s: State, c: ConnId, id: nat) {
    && id in s.askers && s.askers[id] == c && id in s.registry.processes
    && s.registry.processes[id].Delete? && !s.registry.processes[id].delete.Looking?
  }

  /** The connection has a port and its delete request, if it made one, has not been looked up yet. */
  ghost predicate Holds(s: State, c: ConnId) {
    && c in s.owner && c in s.conns && !s.conns[c].command.CommandReturned?
    && forall id :: !GaveUp(s, c, id)
  }

  /** A pending request of a connection has got this stream a socket, or more. */
  predicate Awaits(s: State, id: nat, st: R.StreamId) {
    id in s.askers && id in s.registry.processes && StreamOf(s.registry.processes[id]) == Some(st)
  }

  function StreamOf(p: R.Process): Option<R.StreamId> {
    match p
    case Create(Bound(st)) => Some(st)
    case Create(Inserting(st)) => Some(st)
    case Create(Created(st)) => Some(st)
    case _ => None
  }

  ghost predicate Keeps(s: State, c: ConnId, st: R.StreamId) {
    c in s.owner && s.owner[c] == st && Holds(s, c)
  }

  /** The stream is some connection's: promised to it, or its own and not given up. */
  ghost predicate Claimed(s: State, st: R.StreamId) {
    (exists id :: Awaits(s, id, st)) || (exists c :: Keeps(s, c, st))
  }

  /** Some connection still claims the port through a disturbed stream. */
  ghost predicate Disturbing(s: State, port: R.Port) {
    exists st :: st in s.disturbed && Claimed(s, st) && st in s.registry.portOf && s.registry.portOf[st] == port
  }

  predicate Connects(s: State, s': State, c: ConnId) {
    c !in s.conns && s' == s.(conns := s.conns[c := T.INITIAL])
  }

  /** A step inside one connection. */
  ghost predicate Internal(ws: Worlds, codec: T.Codec, s: State, s': State, c: ConnId, t: T.State) {
    && c in s.conns && s' == s.(conns := s.conns[c := t])
    && (T.FrameStep(codec, s.conns[c], t) || (T.CommandStep(ws(c), s.conns[c], t) && !CallsServer(s.conns[c])))
  }

  predicate PostSent(s: State, s': State, c: ConnId, id: nat) {
    && c in s.conns && s.conns[c].command.Allocating? && !Asking(s, c)
    && R.CreateStarts(s.registry, s'.registry, id, 0)
    && s' == s.(registry := s'.registry, askers := s.askers[id := c])
  }

  /** The answer carries the stream's port; a failed request carries none. */
  predicate PostAnswered(ws: Worlds, s: State, s': State, c: ConnId, id: nat, t: T.State) {
    && c in s.conns && id in s.askers && s.askers[id] == c
    && id in s.registry.processes && s.registry.processes[id].Create?
    && R.RequestEnds(s.registry, s'.registry, id)
    && T.CommandAllocates(ws(c), s.conns[c], t)
    && var pc, answer := s.registry.processes[id].create, ws(c).port(|s.conns[c].consumed| - 1);
    && (if pc.Created? then pc.st in s.registry.portOf && answer == Some(s.registry.portOf[pc.st]) else answer == None)
    && s' == s.(registry := s'.registry, conns := s.conns[c := t], askers := s.askers - {id},
                owner := if pc.Created? then s.owner[c := pc.st] else s.owner)
  }

  predicate DeleteSent(s: State, s': State, c: ConnId, id: nat) {
    && c in s.conns && s.conns[c].command.Releasing? && s.conns[c].conn.rtpPort.Some? && !Asking(s, c)
    && R.DeleteStarts(s.registry, s'.registry, id, s.conns[c].conn.rtpPort.value)
    && s' == s.(registry := s'.registry, askers := s.askers[id := c])
  }

  predicate DeleteAnswered(s: State, s': State, c: ConnId, id: nat, t: T.State) {
    && c in s.conns && id in s.askers && s.askers[id] == c
    && id in s.registry.processes && s.registry.processes[id].Delete?
    && R.RequestEnds(s.registry, s'.registry, id)
    && T.CommandFrees(s.conns[c], t)
    && s' == s.(registry := s'.registry, conns := s.conns[c := t], askers := s.askers - {id})
  }

  /** A step of the server. A stream that gets a socket while a disturbed one still claims the port is disturbed too. */
  ghost predicate ServerWorks(s: State, s': State, id: nat) {
    && R.ProcessStep(s.registry, s'.registry, id) && OnlyServer(s, s')
    && s'.disturbed == s.disturbed + Afflicted(s, s'.registry)
  }

  ghost function Afflicted(s: State, r: R.State): set<R.StreamId> {
    set st | st in r.portOf.Keys - s.registry.portOf.Keys && Disturbing(s, r.portOf[st])
  }

  predicate OnlyServer(s: State, s': State) {
    s' == s.(registry := s'.registry, disturbed := s'.disturbed)
  }

  predicate ReaderFails(s: State, s': State, st: R.StreamId) {
    R.ReaderFails(s.registry, s'.registry, st) && OnlyServer(s, s') && s'.disturbed == s.disturbed + {st}
  }

  predicate OtherCreates(s: State, s': State, id: nat, want: R.Port) {
    R.CreateStarts(s.registry, s'.registry, id, want) && s' == s.(registry := s'.registry)
  }

  predicate OtherEnds(s: State, s': State, id: nat) {
    && id !in s.askers && R.RequestEnds(s.registry, s'.registry, id) && s' == s.(registry := s'.registry)
  }

  ghost predicate Step(ws: Worlds, codec: T.Codec, s: State, s': State) {
    && !s.registry.panicked
    && (|| (exists c :: Connects(s, s', c))
        || (exists c, t :: Internal(ws, codec, s, s', c, t))
        || (exists c, id :: PostSent(s, s', c, id))
        || (exists c, id, t :: PostAnswered(ws, s, s', c, id, t))
        || (exists c, id :: DeleteSent(s, s', c, id))
        || (exists c, id, t :: DeleteAnswered(s, s', c, id, t))
        || (exists id :: ServerWorks(s, s', id))
        || (exists st :: ReaderFails(s, s', st))
        || (exists id, want :: OtherCreates(s, s', id, want))
        || (exists id :: OtherEnds(s, s', id)))
  }

  ghost predicate IsRun(ws: Worlds, codec: T.Codec, run: seq<State>) {
    && run != [] && run[0] == INITIAL
    && forall i :: 0 <= i < |run| - 1 ==> Step(ws, codec, run[i], run[i + 1])
  }

  ghost predicate Reachable(ws: Worlds, codec: T.Codec, s: State) {
    exists run :: IsRun(ws, codec, run) && run[|run| - 1] == s
  }

  // ---- the invariant ----

  /** Each connection by itself is one of the two-task connections. */
  ghost predicate ConnsInv(ws: Worlds, codec: T.Codec, s: State) {
    forall c <- s.conns :: LockStep.Inv(ws(c), codec, s.conns[c])
  }

  /** What the composition needs to know of a connection. */
  predicate Sane(t: T.State) {
    && (t.command.Allocating? ==> t.conn.rtpPort.None?)
    && t.leased == (if t.conn.rtpPort.Some? then [t.conn.rtpPort.value] else [])
    && t.freed == (if t.command.CommandReturned? then t.leased else [])
  }

  predicate AllSane(s: State) {
    forall c <- s.conns :: Sane(s.conns[c])
  }

  /** Pending requests belong to different connections, each waiting in the call it made; only connections delete. */
  predicate RequestsInv(s: State) {
    && (forall id <- s.askers ::
          && s.askers[id] in s.conns && id in s.registry.processes
          && var t, p := s.conns[s.askers[id]], s.registry.processes[id];
          && (p.Create? ==> t.command.Allocating?)
          && (p.Delete? ==> t.command.Releasing? && t.conn.rtpPort.Some?
                            && (p.delete.Looking? ==> p.delete.port == t.conn.rtpPort.value)))
    && (forall id, id' | id in s.askers && id' in s.askers && id != id' :: s.askers[id] != s.askers[id'])
    && (forall id | id in s.registry.processes && s.registry.processes[id].Delete? :: id in s.askers)
  }

  /** A connection has a port exactly when a stream was created for it, with that port; no two share a stream. */
  predicate OwnersInv(s: State) {
    && (forall c <- s.conns :: s.conns[c].conn.rtpPort.Some? <==> c in s.owner)
    && (forall c <- s.owner ::
          && c in s.conns && s.owner[c] in s.registry.inserted && s.owner[c] in s.registry.portOf
          && s.conns[c].conn.rtpPort == Some(s.registry.portOf[s.owner[c]]))
    && (forall a, b | a in s.owner && b in s.owner && a != b :: s.owner[a] != s.owner[b])
  }

  /** The registry no longer has the stream of a connection that gave its port up. */
  ghost predicate GoneInv(s: State) {
    forall c | c in s.owner && !Holds(s, c) :: !Registered(s.registry, s.owner[c])
  }

  /** A created stream whose answer is still on its way belongs to nobody yet. */
  predicate UnclaimedInv(s: State) {
    && (forall id | id in s.registry.processes && IsCreated(s.registry.processes[id]) ::
          var st := s.registry.processes[id].create.st;
          st in s.registry.inserted && st in s.registry.portOf && forall c <- s.owner :: s.owner[c] != st)
    && (forall id, id' | id in s.registry.processes && id' in s.registry.processes && id != id'
                         && IsCreated(s.registry.processes[id]) && IsCreated(s.registry.processes[id']) ::
          s.registry.processes[id].create.st != s.registry.processes[id'].create.st)
  }

  predicate IsCreated(p: R.Process) {
    p.Create? && p.create.Created?
  }

  ghost predicate LinkInv(s: State) {
    && RegistryInvariant.Inv(s.registry) && AllSane(s) && RequestsInv(s)
    && OwnersInv(s) && GoneInv(s) && UnclaimedInv(s)
  }

  // ---- what the conjuncts depend on ----

  /** Requests may come and go and do their work, but none is answered with a stream, looks a port up or inserts. */
  ghost predicate Mild(r: R.State, r': R.State) {
    && r'.streams == r.streams && r'.inserted == r.inserted && r.failedReaders <= r'.failedReaders
    && (forall st <- r.portOf :: st in r'.portOf && r'.portOf[st] == r.portOf[st])
    && (forall id <- r'.processes :: MildFor(r, r'.processes[id], id))
  }

  predicate MildFor(r: R.State, p: R.Process, id: nat) {
    if id in r.processes then SameRole(r.processes[id], p)
    else (p.Create? && !p.create.Created?) || (p.Delete? && p.delete.Looking?)
  }

  predicate SameRole(p: R.Process, p': R.Process) {
    || p' == p
    || (p.Create? && p'.Create? && !p.create.Created? && !p'.create.Created?)
    || (p.Delete? && p'.Delete? && !p.delete.Looking? && !p'.delete.Looking?)
  }

  lemma MildKeepsRegistered(r: R.State, r': R.State, st: R.StreamId)
    requires RegistryInvariant.SocketsInv(r) && Mild(r, r') && st in r.portOf
    ensures Registered(r', st) <==> Registered(r, st)
  {}

  lemma MildKeepsUnclaimed(s: State, s': State)
    requires RegistryInvariant.SocketsInv(s.registry) && UnclaimedInv(s)
    requires Mild(s.registry, s'.registry) && s'.owner == s.owner
    ensures UnclaimedInv(s')
  {
    forall id | id in s'.registry.processes && IsCreated(s'.registry.processes[id])
      ensures id in s.registry.processes && s'.registry.processes[id] == s.registry.processes[id]
    {
      assert MildFor(s.registry, s'.registry.processes[id], id);
    }
  }

  predicate SamePorts(s: State, s': State) {
    && s.conns.Keys <= s'.conns.Keys
    && forall c <- s'.conns ::
         s'.conns[c].conn.rtpPort == if c in s.conns then s.conns[c].conn.rtpPort else None
  }

  lemma MildKeepsOwners(s: State, s': State)
    requires OwnersInv(s) && Mild(s.registry, s'.registry) && s'.owner == s.owner && SamePorts(s, s')
    ensures OwnersInv(s')
  {}

  ghost predicate SameHolders(s: State, s': State) {
    forall c <- s.owner :: Holds(s', c) <==> Holds(s, c)
  }

  lemma MildKeepsGone(s: State, s': State)
    requires RegistryInvariant.SocketsInv(s.registry) && OwnersInv(s) && GoneInv(s)
    requires Mild(s.registry, s'.registry) && s'.owner == s.owner && SameHolders(s, s')
    ensures GoneInv(s')
  {
    forall c | c in s'.owner && !Holds(s', c) ensures !Registered(s'.registry, s'.owner[c]) {
      MildKeepsRegistered(s.registry, s'.registry, s.owner[c]);
    }
  }

  /** The three conjuncts about streams survive a step that leaves the holders alone. */
  lemma MildKeepsStreams(s: State, s': State)
    requires RegistryInvariant.SocketsInv(s.registry) && OwnersInv(s) && GoneInv(s) && UnclaimedInv(s)
    requires Mild(s.registry, s'.registry) && s'.owner == s.owner && SamePorts(s, s') && SameHolders(s, s')
    ensures OwnersInv(s') && GoneInv(s') && UnclaimedInv(s')
  {
    MildKeepsOwners(s, s');
    MildKeepsGone(s, s');
    MildKeepsUnclaimed(s, s');
  }

  // ---- steps of one connection ----

  lemma NothingIsMild(r: R.State)
    ensures Mild(r, r)
  {}

  lemma SameGivingUp(s: State, s': State)
    requires s'.owner == s.owner
    requires forall c <- s.owner :: c in s.conns && c in s'.conns
                                    && (s'.conns[c].command.CommandReturned? <==> s.conns[c].command.CommandReturned?)
    requires forall c, id :: GaveUp(s', c, id) <==> GaveUp(s, c, id)
    ensures SameHolders(s, s')
  {}

  lemma ConnectsKeepsRequests(s: State, s': State, c: ConnId)
    requires RequestsInv(s) && OwnersInv(s) && Connects(s, s', c)
    ensures RequestsInv(s') && SameHolders(s, s') && SamePorts(s, s')
  {
    SameGivingUp(s, s');
  }

  lemma InitialIsSane()
    ensures Sane(T.INITIAL)
  {}

  lemma ConnectsKeeps(s: State, s': State, c: ConnId)
    requires LinkInv(s) && Connects(s, s', c)
    ensures LinkInv(s')
  {
    InitialIsSane();
    NothingIsMild(s.registry);
    ConnectsKeepsRequests(s, s', c);
    MildKeepsStreams(s, s');
  }

  /** Outside its calls to the server a connection neither gets nor gives up a port. */
  predicate KeepsPort(t: T.State, t': T.State) {
    && t'.conn.rtpPort == t.conn.rtpPort
    && (CallsServer(t) ==> t'.command == t.command)
    && (t.conn.rtpPort.Some? ==> (t'.command.CommandReturned? <==> t.command.CommandReturned?))
  }

  lemma FrameLeavesCommand(codec: T.Codec, t: T.State, t': T.State)
    requires T.FrameStep(codec, t, t')
    ensures t'.command == t.command && t'.conn == t.conn && t'.leased == t.leased && t'.freed == t.freed
  {}

  lemma CommandKeepsPort(w: World, codec: T.Codec, t: T.State, t': T.State)
    requires LockStep.Inv(w, codec, t) && T.CommandStep(w, t, t') && !CallsServer(t)
    ensures t'.conn.rtpPort == t.conn.rtpPort && t'.leased == t.leased && t'.freed == t.freed
  {
    if T.CommandReceives(w, t, t') {
      LockStep.CommandReceivesKeepsPhase(w, t, t');
    }
  }

  lemma InternalKeepsPort(w: World, codec: T.Codec, t: T.State, t': T.State)
    requires LockStep.Inv(w, codec, t)
    requires T.FrameStep(codec, t, t') || (T.CommandStep(w, t, t') && !CallsServer(t))
    ensures LockStep.Inv(w, codec, t') && KeepsPort(t, t')
  {
    if T.FrameStep(codec, t, t') {
      FrameLeavesCommand(codec, t, t');
      LockStep.FrameStepKeepsInv(w, codec, t, t');
    } else {
      CommandKeepsPort(w, codec, t, t');
      LockStep.CommandStepKeepsInv(w, codec, t, t');
      NoStepAfterReturn(w, t, t');
      if t'.command.CommandReturned? {
        NoPortNoReturn(t, t');
      }
    }
  }

  lemma NoStepAfterReturn(w: World, t: T.State, t': T.State)
    requires T.CommandStep(w, t, t')
    ensures !t.command.CommandReturned?
  {}

  /** Returning without a release means there was no port. */
  lemma NoPortNoReturn(t: T.State, t': T.State)
    requires LockStep.PortDiscipline(t) && LockStep.PortDiscipline(t')
    requires !t.command.CommandReturned? && t'.freed == t.freed && t'.command.CommandReturned?
    ensures t'.conn.rtpPort.None?
  {}

  lemma AllocatingHasNoPort(w: World, t: T.State)
    requires LockStep.Phase(w, t) && t.command.Allocating?
    ensures t.conn.rtpPort.None?
  {}

  lemma ConnIsSane(w: World, codec: T.Codec, t: T.State)
    requires LockStep.Inv(w, codec, t)
    ensures Sane(t)
  {
    if t.command.Allocating? {
      AllocatingHasNoPort(w, t);
    }
  }

  lemma InternalKeepsRequests(s: State, s': State, c: ConnId, t: T.State)
    requires RequestsInv(s) && c in s.conns && s' == s.(conns := s.conns[c := t]) && KeepsPort(s.conns[c], t)
    ensures RequestsInv(s')
  {}

  lemma InternalKeepsHolders(s: State, s': State, c: ConnId, t: T.State)
    requires OwnersInv(s) && c in s.conns && s' == s.(conns := s.conns[c := t]) && KeepsPort(s.conns[c], t)
    ensures SameHolders(s, s')
  {
    SameGivingUp(s, s');
  }

  lemma MovedKeeps(s: State, s': State, c: ConnId, t: T.State)
    requires LinkInv(s) && c in s.conns && s' == s.(conns := s.conns[c := t]) && KeepsPort(s.conns[c], t) && Sane(t)
    ensures LinkInv(s')
  {
    NothingIsMild(s.registry);
    InternalKeepsRequests(s, s', c, t);
    InternalKeepsHolders(s, s', c, t);
    MildKeepsStreams(s, s');
  }

  lemma InternalKeepsConns(ws: Worlds, codec: T.Codec, s: State, s': State, c: ConnId, t: T.State)
    requires ConnsInv(ws, codec, s) && Internal(ws, codec, s, s', c, t)
    ensures ConnsInv(ws, codec, s') && KeepsPort(s.conns[c], t) && Sane(t)
  {
    InternalKeepsPort(ws(c), codec, s.conns[c], t);
    ConnIsSane(ws(c), codec, t);
  }

  // ---- requests ----

  lemma StartIsMild(r: R.State, r': R.State, id: nat, port: R.Port)
    requires R.CreateStarts(r, r', id, port) || R.DeleteStarts(r, r', id, port)
    ensures Mild(r, r')
  {}

  lemma EndIsMild(r: R.State, r': R.State, id: nat)
    requires R.RequestEnds(r, r', id)
    ensures Mild(r, r')
  {}

  lemma FailureIsMild(r: R.State, r': R.State, st: R.StreamId)
    requires R.ReaderFails(r, r', st)
    ensures Mild(r, r')
  {}

  lemma PostSentKeepsRequests(s: State, s': State, c: ConnId, id: nat)
    requires RequestsInv(s) && OwnersInv(s) && PostSent(s, s', c, id)
    ensures RequestsInv(s') && SameHolders(s, s')
  {
    SameGivingUp(s, s');
  }

  lemma PostSentKeeps(s: State, s': State, c: ConnId, id: nat)
    requires LinkInv(s) && PostSent(s, s', c, id)
    ensures LinkInv(s')
  {
    RegistryInvariant.StartsKeepsInv(s.registry, s'.registry, id, 0);
    StartIsMild(s.registry, s'.registry, id, 0);
    PostSentKeepsRequests(s, s', c, id);
    MildKeepsStreams(s, s');
  }

  lemma DeleteSentKeepsRequests(s: State, s': State, c: ConnId, id: nat)
    requires RequestsInv(s) && OwnersInv(s) && DeleteSent(s, s', c, id)
    ensures RequestsInv(s') && SameHolders(s, s')
  {
    SameGivingUp(s, s');
  }

  lemma DeleteSentKeeps(s: State, s': State, c: ConnId, id: nat)
    requires LinkInv(s) && DeleteSent(s, s', c, id)
    ensures LinkInv(s')
  {
    var port := s.conns[c].conn.rtpPort.value;
    RegistryInvariant.StartsKeepsInv(s.registry, s'.registry, id, port);
    StartIsMild(s.registry, s'.registry, id, port);
    DeleteSentKeepsRequests(s, s', c, id);
    MildKeepsStreams(s, s');
  }

  lemma OthersKeepRequests(s: State, s': State)
    requires RequestsInv(s) && OwnersInv(s) && OnlyServer(s, s') && Mild(s.registry, s'.registry)
    requires forall id <- s.askers :: id in s.registry.processes ==> id in s'.registry.processes
    requires forall id <- s'.registry.processes :: s'.registry.processes[id].Delete? ==> id in s.registry.processes
    ensures RequestsInv(s') && SameHolders(s, s')
  {
    forall id <- s'.registry.processes ensures MildFor(s.registry, s'.registry.processes[id], id) {}
    SameGivingUp(s, s');
  }

  lemma OtherCreatesKeeps(s: State, s': State, id: nat, want: R.Port)
    requires LinkInv(s) && OtherCreates(s, s', id, want)
    ensures LinkInv(s')
  {
    RegistryInvariant.StartsKeepsInv(s.registry, s'.registry, id, want);
    StartIsMild(s.registry, s'.registry, id, want);
    OthersKeepRequests(s, s');
    MildKeepsStreams(s, s');
  }

  lemma OtherEndsKeeps(s: State, s': State, id: nat)
    requires LinkInv(s) && OtherEnds(s, s', id)
    ensures LinkInv(s')
  {
    RegistryInvariant.EndsKeepsInv(s.registry, s'.registry, id);
    EndIsMild(s.registry, s'.registry, id);
    OthersKeepRequests(s, s');
    MildKeepsStreams(s, s');
  }

  lemma ReaderFailsKeeps(s: State, s': State, st: R.StreamId)
    requires LinkInv(s) && ReaderFails(s, s', st)
    ensures LinkInv(s')
  {
    RegistryInvariant.ReaderFailsKeepsInv(s.registry, s'.registry, st);
    FailureIsMild(s.registry, s'.registry, st);
    OthersKeepRequests(s, s');
    MildKeepsStreams(s, s');
  }

  // ---- answers ----

  /** A refused request, and the freeing of a port that was given up before, leave the holders alone. */
  lemma RefusedKeepsRequests(s: State, s': State, c: ConnId, id: nat, t: T.State)
    requires RequestsInv(s) && c in s.conns && id in s.askers && s.askers[id] == c
    requires R.RequestEnds(s.registry, s'.registry, id)
    requires s' == s.(registry := s'.registry, conns := s.conns[c := t], askers := s.askers - {id})
    ensures RequestsInv(s')
    ensures forall d, k :: d != c ==> (GaveUp(s', d, k) <==> GaveUp(s, d, k))
  {}

  lemma RefusedKeepsPorts(s: State, s': State, c: ConnId, t: T.State)
    requires OwnersInv(s) && c in s.conns && s'.conns == s.conns[c := t]
    requires t.conn.rtpPort == s.conns[c].conn.rtpPort
    ensures SamePorts(s, s')
  {}

  lemma RefusedKeepsHolders(s: State, s': State, c: ConnId, id: nat)
    requires s'.owner == s.owner && c in s.conns && c in s'.conns && s'.conns == s.conns[c := s'.conns[c]]
    requires forall d, k :: d != c ==> (GaveUp(s', d, k) <==> GaveUp(s, d, k))
    requires c in s.owner ==> s'.conns[c].command.CommandReturned? && GaveUp(s, c, id)
    ensures SameHolders(s, s')
  {}

  lemma RefusedKeeps(s: State, s': State, c: ConnId, id: nat, t: T.State)
    requires LinkInv(s) && c in s.conns && id in s.askers && s.askers[id] == c && Sane(t)
    requires R.RequestEnds(s.registry, s'.registry, id)
    requires s' == s.(registry := s'.registry, conns := s.conns[c := t], askers := s.askers - {id})
    requires t.conn.rtpPort == s.conns[c].conn.rtpPort
    requires c in s.owner ==> t.command.CommandReturned? && GaveUp(s, c, id)
    ensures LinkInv(s')
  {
    RegistryInvariant.EndsKeepsInv(s.registry, s'.registry, id);
    EndIsMild(s.registry, s'.registry, id);
    RefusedKeepsRequests(s, s', c, id, t);
    RefusedKeepsPorts(s, s', c, t);
    RefusedKeepsHolders(s, s', c, id);
    MildKeepsStreams(s, s');
  }

  /** The connection c gets the stream of its request: a 16-bit port number survives the cast. */
  predicate Granted(s: State, s': State, c: ConnId, id: nat, t: T.State) {
    && c in s.conns && id in s.askers && s.askers[id] == c && id in s.registry.processes
    && IsCreated(s.registry.processes[id]) && R.RequestEnds(s.registry, s'.registry, id)
    && var st := s.registry.processes[id].create.st;
    && st in s.registry.portOf && t.conn.rtpPort == Some(s.registry.portOf[st]) && !t.command.CommandReturned?
    && s.conns[c].conn.rtpPort.None?
    && s' == s.(registry := s'.registry, conns := s.conns[c := t], askers := s.askers - {id}, owner := s.owner[c := st])
  }

  lemma PortSurvivesCast(port: R.Port)
    requires port <= R.MAX_PORT
    ensures AllocatePort(Some(port)) == Some(port)
  {}

  lemma AnswerGrants(ws: Worlds, s: State, s': State, c: ConnId, id: nat, t: T.State)
    requires c in s.conns && s.conns[c].conn.rtpPort.None?
    requires forall st <- s.registry.portOf :: s.registry.portOf[st] <= R.MAX_PORT
    requires PostAnswered(ws, s, s', c, id, t) && IsCreated(s.registry.processes[id])
    ensures Granted(s, s', c, id, t)
  {
    PortSurvivesCast(s.registry.portOf[s.registry.processes[id].create.st]);
  }

  lemma GrantKeepsRequests(s: State, s': State, c: ConnId, id: nat, t: T.State)
    requires RequestsInv(s) && Granted(s, s', c, id, t)
    ensures RequestsInv(s')
    ensures forall k :: !GaveUp(s', c, k)
    ensures forall d, k :: d != c ==> (GaveUp(s', d, k) <==> GaveUp(s, d, k))
  {}

  lemma GrantKeepsOwners(s: State, s': State, c: ConnId, id: nat, t: T.State)
    requires OwnersInv(s) && UnclaimedInv(s) && Granted(s, s', c, id, t)
    ensures OwnersInv(s')
  {}

  lemma GrantMakesHolder(s: State, s': State, c: ConnId, id: nat, t: T.State)
    requires RequestsInv(s) && OwnersInv(s) && Granted(s, s', c, id, t)
    ensures c !in s.owner && Holds(s', c)
    ensures forall d <- s.owner :: Holds(s', d) <==> Holds(s, d)
  {
    GrantKeepsRequests(s, s', c, id, t);
  }

  lemma GrantKeepsGone(s: State, s': State, c: ConnId, id: nat, t: T.State)
    requires RequestsInv(s) && OwnersInv(s) && GoneInv(s) && Granted(s, s', c, id, t)
    ensures GoneInv(s')
  {
    GrantMakesHolder(s, s', c, id, t);
  }

  lemma GrantKeepsUnclaimed(s: State, s': State, c: ConnId, id: nat, t: T.State)
    requires UnclaimedInv(s) && Granted(s, s', c, id, t)
    ensures UnclaimedInv(s')
  {}

  lemma GrantKeeps(s: State, s': State, c: ConnId, id: nat, t: T.State)
    requires LinkInv(s) && Granted(s, s', c, id, t) && Sane(t)
    ensures LinkInv(s')
  {
    RegistryInvariant.EndsKeepsInv(s.registry, s'.registry, id);
    GrantKeepsRequests(s, s', c, id, t);
    GrantKeepsOwners(s, s', c, id, t);
    GrantKeepsGone(s, s', c, id, t);
    GrantKeepsUnclaimed(s, s', c, id, t);
  }

  // ---- the server's own steps ----

  lemma ListensIsMild(r: R.State, r': R.State, id: nat, st: R.StreamId, port: R.Port)
    requires R.Listens(r, r', id, st, port)
    ensures Mild(r, r') && r'.processes.Keys == r.processes.Keys
  {}

  lemma MakingIsMild(r: R.State, r': R.State, id: nat)
    requires R.ListenFails(r, r', id) || R.TracksMade(r, r', id) || R.TracksFail(r, r', id)
    ensures Mild(r, r') && r'.processes.Keys == r.processes.Keys
  {}

  lemma ClosingIsMild(r: R.State, r': R.State, id: nat)
    requires R.ClosesConn(r, r', id) || R.TestsHub(r, r', id) || R.ClosesHub(r, r', id)
    ensures Mild(r, r') && r'.processes.Keys == r.processes.Keys
  {}

  lemma WorkIsMild(r: R.State, r': R.State, id: nat)
    requires R.ProcessStep(r, r', id) && !R.Inserts(r, r', id) && !R.LooksUp(r, r', id)
    ensures Mild(r, r') && r'.processes.Keys == r.processes.Keys
  {
    if st, port :| R.Listens(r, r', id, st, port) {
      ListensIsMild(r, r', id, st, port);
    } else if R.ListenFails(r, r', id) || R.TracksMade(r, r', id) || R.TracksFail(r, r', id) {
      MakingIsMild(r, r', id);
    } else {
      ClosingIsMild(r, r', id);
    }
  }

  lemma WorkKeeps(s: State, s': State, id: nat)
    requires LinkInv(s) && ServerWorks(s, s', id)
    requires !R.Inserts(s.registry, s'.registry, id) && !R.LooksUp(s.registry, s'.registry, id)
    ensures LinkInv(s')
  {
    RegistryInvariant.ProcessKeepsInv(s.registry, s'.registry, id);
    WorkIsMild(s.registry, s'.registry, id);
    OthersKeepRequests(s, s');
    MildKeepsStreams(s, s');
  }

  /** An insert changes nothing for streams that were inserted before, but may push one out. */
  lemma InsertsOther(r: R.State, r': R.State, id: nat, other: R.StreamId)
    requires RegistryInvariant.Inv(r) && R.Inserts(r, r', id) && other in r.inserted && other in r.portOf
    ensures other != r.processes[id].create.st
    ensures Registered(r', other) ==> Registered(r, other)
  {}

  lemma InsertsKeepsRequests(s: State, s': State, id: nat)
    requires RequestsInv(s) && OwnersInv(s)
    requires R.Inserts(s.registry, s'.registry, id) && OnlyServer(s, s')
    ensures RequestsInv(s') && OwnersInv(s') && SameHolders(s, s')
  {
    SameGivingUp(s, s');
  }

  lemma InsertsKeepsGone(s: State, s': State, id: nat)
    requires RegistryInvariant.Inv(s.registry) && OwnersInv(s) && GoneInv(s) && SameHolders(s, s')
    requires R.Inserts(s.registry, s'.registry, id) && OnlyServer(s, s')
    ensures GoneInv(s')
  {
    forall c | c in s'.owner && !Holds(s', c) ensures !Registered(s'.registry, s'.owner[c]) {
      InsertsOther(s.registry, s'.registry, id, s.owner[c]);
    }
  }

  lemma InsertsKeepsUnclaimed(s: State, s': State, id: nat)
    requires RegistryInvariant.Inv(s.registry) && OwnersInv(s) && UnclaimedInv(s)
    requires R.Inserts(s.registry, s'.registry, id) && OnlyServer(s, s')
    ensures UnclaimedInv(s')
  {
    forall k | k in s.registry.processes && IsCreated(s.registry.processes[k]) {
      InsertsOther(s.registry, s'.registry, id, s.registry.processes[k].create.st);
    }
    forall c <- s.owner {
      InsertsOther(s.registry, s'.registry, id, s.owner[c]);
    }
  }

  lemma InsertsKeeps(s: State, s': State, id: nat)
    requires LinkInv(s) && R.Inserts(s.registry, s'.registry, id) && OnlyServer(s, s')
    ensures LinkInv(s')
  {
    RegistryInvariant.InsertsKeepsInv(s.registry, s'.registry, id);
    InsertsKeepsRequests(s, s', id);
    InsertsKeepsGone(s, s', id);
    InsertsKeepsUnclaimed(s, s', id);
  }

  /** Whoever asks for a look-up still holds the stream it asks about, under the port it asks for. */
  lemma AskerHolds(s: State, id: nat)
    requires RequestsInv(s) && OwnersInv(s)
    requires id in s.registry.processes && s.registry.processes[id].Delete? && s.registry.processes[id].delete.Looking?
    ensures id in s.askers && Holds(s, s.askers[id])
    ensures s.registry.portOf[s.owner[s.askers[id]]] == s.registry.processes[id].delete.port
  {}

  lemma LooksUpKeepsRequests(s: State, s': State, id: nat)
    requires RequestsInv(s) && OwnersInv(s)
    requires R.LooksUp(s.registry, s'.registry, id) && OnlyServer(s, s')
    ensures RequestsInv(s') && OwnersInv(s')
    ensures id in s.askers && GaveUp(s', s.askers[id], id)
    ensures forall c <- s.owner :: c != s.askers[id] ==> (Holds(s', c) <==> Holds(s, c))
  {
    AskerHolds(s, id);
    forall c, k | c != s.askers[id] ensures GaveUp(s', c, k) <==> GaveUp(s, c, k) {}
  }

  lemma LookUpTakesOne(r: R.State, r': R.State, id: nat, st: R.StreamId)
    requires R.LooksUp(r, r', id) && st in r.portOf
    ensures Registered(r', st) <==> Registered(r, st) && r.portOf[st] != r.processes[id].delete.port
  {}

  lemma LooksUpKeepsGone(s: State, s': State, id: nat)
    requires RequestsInv(s) && OwnersInv(s) && GoneInv(s)
    requires R.LooksUp(s.registry, s'.registry, id) && OnlyServer(s, s')
    ensures GoneInv(s')
  {
    AskerHolds(s, id);
    LooksUpKeepsRequests(s, s', id);
    forall c | c in s'.owner && !Holds(s', c) ensures !Registered(s'.registry, s'.owner[c]) {
      LookUpTakesOne(s.registry, s'.registry, id, s.owner[c]);
    }
  }

  lemma LooksUpKeepsUnclaimed(s: State, s': State, id: nat)
    requires UnclaimedInv(s) && R.LooksUp(s.registry, s'.registry, id) && OnlyServer(s, s')
    ensures UnclaimedInv(s')
  {}

  lemma LooksUpKeeps(s: State, s': State, id: nat)
    requires LinkInv(s) && R.LooksUp(s.registry, s'.registry, id) && OnlyServer(s, s')
    ensures LinkInv(s')
  {
    RegistryInvariant.LooksUpKeepsInv(s.registry, s'.registry, id);
    LooksUpKeepsRequests(s, s', id);
    LooksUpKeepsGone(s, s', id);
    LooksUpKeepsUnclaimed(s, s', id);
  }

  // ---- the connections by themselves ----

  lemma AnswersKeepConns(ws: Worlds, codec: T.Codec, s: State, s': State, c: ConnId, t: T.State)
    requires ConnsInv(ws, codec, s) && c in s.conns && s'.conns == s.conns[c := t]
    requires T.CommandStep(ws(c), s.conns[c], t)
    ensures ConnsInv(ws, codec, s') && Sane(t)
  {
    LockStep.CommandStepKeepsInv(ws(c), codec, s.conns[c], t);
    ConnIsSane(ws(c), codec, t);
  }

  lemma ConnectsKeepsConns(ws: Worlds, codec: T.Codec, s: State, s': State, c: ConnId)
    requires ConnsInv(ws, codec, s) && Connects(s, s', c)
    ensures ConnsInv(ws, codec, s')
  {
    LockStep.InitInv(ws(c), codec);
  }
}

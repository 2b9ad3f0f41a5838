/** What the registry's order of operations buys: listen before insert, delete before close. */
module RegistryTheorems {
  import opened Wrappers
  import opened RegistryInvariant
  import opened RegistryMachine
  import opened RegistrySockets

  /** An insert replaces an entry only if that entry's reader had failed on its own; with
      readers that stop only after their socket was closed, the key is always absent. */
  lemma InsertMeetsAbsentKey(s: State, s': State, id: nat)
    requires Reachable(s) && Inserts(s, s', id)
    ensures var port := s.portOf[s.processes[id].create.st];
      port in s.streams ==> s.streams[port] in s.failedReaders
    ensures s.failedReaders == {} ==> s'.overwritten == {}
  {
    ReachableInv(s);
  }

  /** As long as no reader has failed, every registered stream holds the port it is
      registered under, and no stream was ever pushed out of the map. */
  lemma EntriesHoldTheirPorts(s: State)
    requires Reachable(s)
    ensures s.overwritten <= s.failedReaders
    ensures forall port <- s.streams :: s.streams[port] in s.portOf && s.portOf[s.streams[port]] == port
    ensures forall port <- s.streams ::
      s.streams[port] !in s.failedReaders ==> port in s.bound && s.bound[port] == s.streams[port]
  {
    ReachableInv(s);
  }

  /** However many deletes of a port run at once, at most one of them closes a stream's socket and
      hub: the test-then-close of the done channel never closes it twice. */
  lemma HubClosedOnce(s: State)
    requires Reachable(s)
    ensures !s.panicked
    ensures forall id, id' | id in s.processes && id' in s.processes && id != id' && Unmaking(s.processes[id]).Some? ::
      Unmaking(s.processes[id]) != Unmaking(s.processes[id'])
    ensures forall id | id in s.processes && s.processes[id].Delete? && s.processes[id].delete.HubClosing? ::
      s.processes[id].delete.st !in s.hubDone
    ensures forall port <- s.streams :: s.streams[port] !in s.hubDone
  {
    ReachableInv(s);
    forall id | id in s.processes && s.processes[id].Delete? && s.processes[id].delete.HubClosing?
      ensures s.processes[id].delete.st !in s.hubDone
    {
      assert Unmaking(s.processes[id]) == Some(s.processes[id].delete.st);
    }
  }

  // ---- when a reader does fail ----

  lemma RunExtends(run: seq<State>, s: State) returns (longer: seq<State>)
    requires IsRun(run) && Step(run[|run| - 1], s)
    ensures IsRun(longer) && longer[|longer| - 1] == s
  {
    longer := run + [s];
    forall i | 0 <= i < |longer| - 1 ensures Step(longer[i], longer[i + 1]) {
      if i < |run| - 1 {
        assert longer[i] == run[i] && longer[i + 1] == run[i + 1];
      }
    }
  }

  /** The stream `st` was made for request `id`, bound to `port` and registered there. */
  predicate Made(r: State, r': State, id: nat, st: StreamId, port: Port) {
    && r'.processes == r.processes[id := Create(Created(st))] && r'.failedReaders == r.failedReaders
    && r'.portOf == r.portOf[st := port] && r'.bound == r.bound[port := st]
    && r'.streams == r.streams[port := st] && r'.inserted == r.inserted + {st} && r'.panicked == r.panicked
    && r'.overwritten == r.overwritten + if port in r.streams then {r.streams[port]} else {}
  }

  /** A create request can get any port that is not bound. */
  lemma Makes(r: State, id: nat, st: StreamId, port: Port) returns (r1: State, r2: State, r3: State)
    requires id in r.processes && r.processes[id] == Create(Listening(0))
    requires 0 < port <= MAX_PORT && port !in r.bound && st !in r.portOf
    ensures ProcessStep(r, r1, id) && ProcessStep(r1, r2, id) && ProcessStep(r2, r3, id)
    ensures r1.panicked == r2.panicked == r.panicked && Made(r, r3, id, st, port)
    ensures r1.failedReaders == r2.failedReaders == r.failedReaders && r1.streams == r2.streams == r.streams
  {
    r1 := Goes(r.(portOf := r.portOf[st := port], bound := r.bound[port := st]), id, Create(Bound(st)));
    assert Listens(r, r1, id, st, port);
    r2 := Goes(r1, id, Create(Inserting(st)));
    assert TracksMade(r1, r2, id);
    r3 := Goes(r2.(streams := r2.streams[port := st], inserted := r2.inserted + {st},
                   overwritten := r2.overwritten + if port in r2.streams then {r2.streams[port]} else {}),
               id, Create(Created(st)));
    assert Inserts(r2, r3, id);
  }

  /** One create request from its start to its answer. */
  lemma CreateRuns(run: seq<State>, id: nat, st: StreamId, port: Port) returns (more: seq<State>)
    requires IsRun(run)
    requires var s := run[|run| - 1];
      !s.panicked && id !in s.processes && st !in s.portOf && port !in s.bound && 0 < port <= MAX_PORT
    ensures IsRun(more)
    ensures var s, t := run[|run| - 1], more[|more| - 1]; Made(s, t, id, st, port)
  {
    var s := run[|run| - 1];
    var s1 := Goes(s, id, Create(Listening(0)));
    var s2, s3, s4 := Makes(s1, id, st, port);
    assert CreateStarts(s, s1, id, 0);
    more := RunExtends(run, s1);
    more := RunExtends(more, s2);
    more := RunExtends(more, s3);
    more := RunExtends(more, s4);
  }

  // ---- when an entry can be lost, exactly ----

  /** Steps in which no further reader fails and no delete takes an entry out. */
  ghost predicate CalmStep(s: State, s': State) {
    Step(s, s') && s'.failedReaders == s.failedReaders && s.streams.Keys <= s'.streams.Keys
  }

  ghost predicate CalmPath(path: seq<State>) {
    path != [] && forall i :: 0 <= i < |path| - 1 ==> CalmStep(path[i], path[i + 1])
  }

  /** The entry names another stream than before. */
  predicate Replaced(s: State, s': State, port: Port) {
    port in s.streams && port in s'.streams && s'.streams[port] != s.streams[port]
  }

  lemma ProcessSparesEntry(s: State, s': State, id: nat, port: Port)
    requires Inv(s) && ProcessStep(s, s', id) && port in s.streams && port in s'.streams
    requires s.streams[port] !in s.failedReaders
    ensures s'.streams[port] == s.streams[port]
  {}

  lemma StepSparesEntry(s: State, s': State, port: Port)
    requires Inv(s) && CalmStep(s, s') && port in s.streams && s.streams[port] !in s.failedReaders
    ensures port in s'.streams && s'.streams[port] == s.streams[port]
  {
    if id :| ProcessStep(s, s', id) {
      ProcessSparesEntry(s, s', id, port);
    }
  }

  lemma {:induction false} PathSparesEntry(path: seq<State>, port: Port)
    requires CalmPath(path) && Inv(path[0]) && port in path[0].streams
        && path[0].streams[port] !in path[0].failedReaders
    ensures !Replaced(path[0], path[|path| - 1], port)
    decreases |path|
  {
    if |path| > 1 {
      assert CalmStep(path[0], path[0 + 1]);
      StepSparesEntry(path[0], path[1], port);
      StepKeepsInv(path[0], path[1]);
      var rest := path[1..];
      forall i | 0 <= i < |rest| - 1 ensures CalmStep(rest[i], rest[i + 1]) {
        assert CalmStep(path[i + 1], path[i + 1 + 1]);
      }
      PathSparesEntry(rest, port);
    }
  }

  lemma UpperBound(ids: set<nat>) returns (n: nat)
    ensures forall id <- ids :: id < n
  {
    if ids == {} {
      n := 0;
    } else {
      var id :| id in ids;
      var m := UpperBound(ids - {id});
      n := if id < m then m else id + 1;
      forall k | k in ids ensures k < n {
        assert k == id || k in ids - {id};
      }
    }
  }

  /** A new stream is made on the free port and takes the entry. */
  lemma NewStreamReplaces(s: State, port: Port) returns (path: seq<State>)
    requires SocketsInv(s) && StreamsInv(s) && !s.panicked && port in s.streams && port !in s.bound
    ensures CalmPath(path) && path[0] == s && Replaced(s, path[|path| - 1], port)
    ensures s.streams[port] in path[|path| - 1].overwritten
  {
    var id := UpperBound(s.processes.Keys);
    var st := UpperBound(s.portOf.Keys);
    var s1 := Goes(s, id, Create(Listening(0)));
    assert CreateStarts(s, s1, id, 0);
    var s2, s3, s4 := Makes(s1, id, st, port);
    path := [s, s1, s2, s3, s4];
    assert CalmStep(s, s1) && CalmStep(s1, s2) && CalmStep(s2, s3) && CalmStep(s3, s4);
  }

  /** The stream being made on the port takes the entry when its request gets there. */
  lemma MakerReplaces(s: State, id: nat, st: StreamId, port: Port) returns (path: seq<State>)
    requires Inv(s) && IsMaking(s, id, st) && port in s.streams && s.portOf[st] == port && s.streams[port] != st
    ensures CalmPath(path) && path[0] == s && Replaced(s, path[|path| - 1], port)
    ensures s.streams[port] in path[|path| - 1].overwritten
  {
    var s1 := if s.processes[id].create.Bound? then Goes(s, id, Create(Inserting(st))) else s;
    var s2 := Goes(s1.(streams := s1.streams[port := st], inserted := s1.inserted + {st},
                       overwritten := s1.overwritten + {s1.streams[port]}),
                   id, Create(Created(st)));
    assert Inserts(s1, s2, id) && ProcessStep(s1, s2, id) && CalmStep(s1, s2);
    if s.processes[id].create.Bound? {
      assert TracksMade(s, s1, id) && ProcessStep(s, s1, id) && CalmStep(s, s1);
      path := [s, s1, s2];
    } else {
      path := [s, s2];
    }
  }

  /** An entry can be replaced, with no further reader failing and no delete, exactly when its stream's reader
      has failed. */
  lemma EntryReplaceableExactly(s: State, port: Port)
    requires Reachable(s) && port in s.streams
    ensures (exists path :: CalmPath(path) && path[0] == s && Replaced(s, path[|path| - 1], port))
            <==> s.streams[port] in s.failedReaders
  {
    SocketsAnsweredFor(s);
    var st := s.streams[port];
    if st !in s.failedReaders {
      forall path | CalmPath(path) && path[0] == s ensures !Replaced(s, path[|path| - 1], port) {
        PathSparesEntry(path, port);
      }
    } else if port !in s.bound {
      var path := NewStreamReplaces(s, port);
    } else {
      var other := s.bound[port];
      assert !HasSocket(s, st) && other !in s.inserted;
      var id :| IsMaking(s, id, other);
      var path := MakerReplaces(s, id, other, port);
    }
  }

  // ---- a run in which it happens ----

  /** The condition is needed: a reader that fails frees the port of a stream that is still
      registered, and the next create on that port pushes the stream out of the map. */
  lemma FailedReaderLosesEntry() returns (s: State)
    ensures Reachable(s) && s.failedReaders == {1} && s.overwritten == {1} && s.streams == map[5004 := 2]
  {
    assert IsRun([INITIAL]);
    var first := CreateRuns([INITIAL], 1, 1, 5004);
    var a := first[|first| - 1];
    var b := CloseSocket(a, 1).(failedReaders := a.failedReaders + {1});
    assert ReaderFails(a, b, 1);
    var failed := RunExtends(first, b);
    var second := CreateRuns(failed, 2, 2, 5004);
    s := second[|second| - 1];
    assert Reachable(s);
  }
}

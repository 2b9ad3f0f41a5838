/** What every interleaving of create and delete requests keeps. */
module RegistryInvariant {
  import opened Wrappers
  import opened RegistryMachine

  /** The stream a create request has a socket for and has not inserted yet. */
  function Making(p: Process): Option<StreamId> {
    match p
    case Create(Bound(st)) => Some(st)
    case Create(Inserting(st)) => Some(st)
    case _ => None
  }

  /** The stream a delete request has taken out of the map and not finished with. */
  function Unmaking(p: Process): Option<StreamId> {
    match p
    case Delete(ConnClosing(st)) => Some(st)
    case Delete(HubTesting(st)) => Some(st)
    case Delete(HubClosing(st)) => Some(st)
    case _ => None
  }

  /** A stream's socket is open. */
  predicate HasSocket(s: State, st: StreamId) {
    st in s.portOf && s.portOf[st] in s.bound && s.bound[s.portOf[st]] == st
  }

  /** A registered stream is registered under its own port, and its socket is open unless its reader failed. */
  ghost predicate StreamsInv(s: State) {
    forall port <- s.streams ::
      var st := s.streams[port];
      && st in s.portOf && s.portOf[st] == port && st in s.inserted && st !in s.hubDone
      && (st !in s.failedReaders ==> HasSocket(s, st))
  }

  predicate Registered(s: State, st: StreamId) {
    st in s.portOf && s.portOf[st] in s.streams && s.streams[s.portOf[st]] == st
  }

  ghost predicate MakersInv(s: State) {
    && (forall id | id in s.processes && Making(s.processes[id]).Some? ::
          var st := Making(s.processes[id]).value; HasSocket(s, st) && st !in s.inserted)
    && (forall id, id' | id in s.processes && id' in s.processes && id != id' && Making(s.processes[id]).Some? ::
          Making(s.processes[id]) != Making(s.processes[id']))
  }

  /** A stream is being taken down by at most one request, and is out of the map by then. */
  ghost predicate UnmakersInv(s: State) {
    && (forall id | id in s.processes && Unmaking(s.processes[id]).Some? ::
          var st := Unmaking(s.processes[id]).value;
          st in s.inserted && st in s.portOf && !Registered(s, st) && st !in s.hubDone)
    && (forall id, id' | id in s.processes && id' in s.processes && id != id' && Unmaking(s.processes[id]).Some? ::
          Unmaking(s.processes[id]) != Unmaking(s.processes[id']))
  }

  ghost predicate SocketsInv(s: State) {
    && (forall port <- s.bound :: s.bound[port] in s.portOf && s.portOf[s.bound[port]] == port)
    && (forall st <- s.portOf :: 0 < s.portOf[st] <= MAX_PORT)
    && s.hubDone <= s.inserted && s.inserted <= s.portOf.Keys
    && s.overwritten <= s.failedReaders <= s.inserted
  }

  ghost predicate Inv(s: State) {
    StreamsInv(s) && MakersInv(s) && UnmakersInv(s) && SocketsInv(s) && !s.panicked
  }

  lemma InitInv()
    ensures Inv(INITIAL)
  {}

  lemma ListensKeepsInv(s: State, s': State, id: nat, st: StreamId, port: Port)
    requires Inv(s) && Listens(s, s', id, st, port)
    ensures Inv(s')
  {}

  lemma QuietKeepsInv(s: State, s': State, id: nat)
    requires Inv(s) && (ListenFails(s, s', id) || TracksMade(s, s', id))
    ensures Inv(s')
  {}

  lemma TracksFailKeepsInv(s: State, s': State, id: nat)
    requires Inv(s) && TracksFail(s, s', id)
    ensures Inv(s')
  {}

  lemma InsertsKeepsInv(s: State, s': State, id: nat)
    requires Inv(s) && Inserts(s, s', id)
    ensures Inv(s')
  {}

  lemma LooksUpKeepsInv(s: State, s': State, id: nat)
    requires Inv(s) && LooksUp(s, s', id)
    ensures Inv(s')
  {}

  lemma ClosesConnKeepsInv(s: State, s': State, id: nat)
    requires Inv(s) && ClosesConn(s, s', id)
    ensures Inv(s')
  {}

  lemma TestsHubKeepsInv(s: State, s': State, id: nat)
    requires Inv(s) && TestsHub(s, s', id)
    ensures Inv(s')
  {}

  lemma ClosesHubKeepsInv(s: State, s': State, id: nat)
    requires Inv(s) && ClosesHub(s, s', id)
    ensures Inv(s')
  {}

  lemma StartsKeepsInv(s: State, s': State, id: nat, port: Port)
    requires Inv(s) && (CreateStarts(s, s', id, port) || DeleteStarts(s, s', id, port))
    ensures Inv(s')
  {}

  lemma EndsKeepsInv(s: State, s': State, id: nat)
    requires Inv(s) && RequestEnds(s, s', id)
    ensures Inv(s')
  {}

  lemma ReaderFailsKeepsInv(s: State, s': State, st: StreamId)
    requires Inv(s) && ReaderFails(s, s', st)
    ensures Inv(s')
  {}

  lemma ProcessKeepsInv(s: State, s': State, id: nat)
    requires Inv(s) && ProcessStep(s, s', id)
    ensures Inv(s')
  {
    if st, port :| Listens(s, s', id, st, port) {
      ListensKeepsInv(s, s', id, st, port);
    } else if ListenFails(s, s', id) || TracksMade(s, s', id) {
      QuietKeepsInv(s, s', id);
    } else if TracksFail(s, s', id) {
      TracksFailKeepsInv(s, s', id);
    } else if Inserts(s, s', id) {
      InsertsKeepsInv(s, s', id);
    } else if LooksUp(s, s', id) {
      LooksUpKeepsInv(s, s', id);
    } else if ClosesConn(s, s', id) {
      ClosesConnKeepsInv(s, s', id);
    } else if TestsHub(s, s', id) {
      TestsHubKeepsInv(s, s', id);
    } else {
      ClosesHubKeepsInv(s, s', id);
    }
  }

  lemma StepKeepsInv(s: State, s': State)
    requires Inv(s) && Step(s, s')
    ensures Inv(s')
  {
    if id :| ProcessStep(s, s', id) {
      ProcessKeepsInv(s, s', id);
    } else if id, want :| CreateStarts(s, s', id, want) {
      StartsKeepsInv(s, s', id, want);
    } else if id, port :| DeleteStarts(s, s', id, port) {
      StartsKeepsInv(s, s', id, port);
    } else if id :| RequestEnds(s, s', id) {
      EndsKeepsInv(s, s', id);
    } else {
      var st :| ReaderFails(s, s', st);
      ReaderFailsKeepsInv(s, s', st);
    }
  }

  lemma {:induction false} RunKeepsInv(run: seq<State>)
    requires IsRun(run)
    ensures Inv(run[|run| - 1])
  {
    if |run| == 1 {
      InitInv();
    } else {
      var front := run[..|run| - 1];
      assert IsRun(front);
      RunKeepsInv(front);
      assert Step(run[|run| - 2], run[|run| - 2 + 1]);
      StepKeepsInv(run[|run| - 2], run[|run| - 1]);
    }
  }

  lemma ReachableInv(s: State)
    requires Reachable(s)
    ensures Inv(s)
  {
    var run :| IsRun(run) && run[|run| - 1] == s;
    RunKeepsInv(run);
  }
}

/** What a request to the registry does for the port it names, and that no hub is forgotten. */
module RegistryRequests {
  import opened Wrappers
  import opened RegistryInvariant
  import opened RegistryMachine

  // ---- a request deals with its own port ----

  /** The request is about this port: it asks for it, or the stream it makes or takes down is the one that got it. */
  predicate DealsWith(s: State, id: nat, port: Port) {
    id in s.processes &&
    match s.processes[id]
    case Create(Listening(want)) => want == port
    case Create(Bound(st)) => st in s.portOf && s.portOf[st] == port
    case Create(Inserting(st)) => st in s.portOf && s.portOf[st] == port
    case Create(Created(st)) => st in s.portOf && s.portOf[st] == port
    case Delete(Looking(asked)) => asked == port
    case Delete(ConnClosing(st)) => st in s.portOf && s.portOf[st] == port
    case Delete(HubTesting(st)) => st in s.portOf && s.portOf[st] == port
    case Delete(HubClosing(st)) => st in s.portOf && s.portOf[st] == port
    case _ => true
  }

  lemma OthersStay(s: State, s': State, stepping: nat, id: nat)
    requires ProcessStep(s, s', stepping) && id in s.processes && stepping != id
    ensures id in s'.processes && s'.processes[id] == s.processes[id]
  {
    if s.processes[stepping].Create? {
      CreateMovesAlone(s, s', stepping);
    } else {
      DeleteMovesAlone(s, s', stepping);
    }
  }

  lemma CreateMovesAlone(s: State, s': State, id: nat)
    requires ProcessStep(s, s', id) && s.processes[id].Create?
    ensures id in s'.processes && s'.processes == s.processes[id := s'.processes[id]]
  {}

  lemma DeleteMovesAlone(s: State, s': State, id: nat)
    requires ProcessStep(s, s', id) && s.processes[id].Delete?
    ensures id in s'.processes && s'.processes == s.processes[id := s'.processes[id]]
  {}

  lemma PortsStay(s: State, s': State, stepping: nat, st: StreamId)
    requires ProcessStep(s, s', stepping) && st in s.portOf
    ensures st in s'.portOf && s'.portOf[st] == s.portOf[st]
  {}

  /** Nobody but the request itself changes it, and a stream keeps its port. */
  lemma OthersKeepPort(s: State, s': State, stepping: nat, id: nat, port: Port)
    requires ProcessStep(s, s', stepping) && DealsWith(s, id, port) && stepping != id
    ensures DealsWith(s', id, port)
  {
    OthersStay(s, s', stepping, id);
    forall st <- s.portOf ensures st in s'.portOf && s'.portOf[st] == s.portOf[st] {
      PortsStay(s, s', stepping, st);
    }
  }

  lemma OwnStepKeepsPort(s: State, s': State, id: nat, port: Port)
    requires StreamsInv(s) && ProcessStep(s, s', id) && DealsWith(s, id, port) && port != 0
    ensures DealsWith(s', id, port)
  {
    if s.processes[id].Create? {
      CreateKeepsPort(s, s', id, port);
    }
  }

  lemma CreateKeepsPort(s: State, s': State, id: nat, port: Port)
    requires ProcessStep(s, s', id) && s.processes[id].Create? && DealsWith(s, id, port) && port != 0
    ensures DealsWith(s', id, port)
  {}

  lemma StepKeepsPort(s: State, s': State, id: nat, port: Port)
    requires StreamsInv(s) && Step(s, s') && DealsWith(s, id, port) && port != 0 && id in s'.processes
    ensures DealsWith(s', id, port)
  {
    if stepping :| ProcessStep(s, s', stepping) {
      if stepping == id {
        OwnStepKeepsPort(s, s', id, port);
      } else {
        OthersKeepPort(s, s', stepping, id, port);
      }
    }
  }

  lemma StepInRun(run: seq<State>, k: nat)
    requires IsRun(run) && k + 1 < |run|
    ensures StreamsInv(run[k]) && Step(run[k], run[k + 1])
  {
    var front := run[..k + 1];
    assert IsRun(front) by {
      forall i | 0 <= i < |front| - 1 ensures Step(front[i], front[i + 1]) {
        assert front[i] == run[i] && front[i + 1] == run[i + 1];
      }
    }
    RunKeepsInv(front);
    assert front[|front| - 1] == run[k];
  }

  /** A create that asked for a port other than 0 makes its stream on that port, and a delete takes down
      the stream of the port it named. */
  lemma {:induction false} RequestKeepsItsPort(run: seq<State>, i: nat, j: nat, id: nat, port: Port)
    requires IsRun(run) && i <= j < |run| && DealsWith(run[i], id, port) && port != 0
    requires forall k :: i <= k <= j ==> id in run[k].processes
    ensures DealsWith(run[j], id, port)
  {
    if i < j {
      RequestKeepsItsPort(run, i, j - 1, id, port);
      StepInRun(run, j - 1);
      StepKeepsPort(run[j - 1], run[j], id, port);
    }
  }

  // ---- no hub is forgotten ----

  ghost predicate IsUnmaking(s: State, id: nat, st: StreamId) {
    id in s.processes && Unmaking(s.processes[id]) == Some(st)
  }

  /** The hub of a stream that was registered once may run on only for these reasons. */
  ghost predicate HubAccounted(s: State, st: StreamId) {
    Registered(s, st) || st in s.overwritten || st in s.hubDone || exists id :: IsUnmaking(s, id, st)
  }

  ghost predicate Hubs(s: State) {
    forall st <- s.inserted :: HubAccounted(s, st)
  }

  lemma EntryKeepsHub(s: State, s': State, id: nat, st: StreamId)
    requires StreamsInv(s) && ProcessStep(s, s', id) && Registered(s, st)
    ensures HubAccounted(s', st)
  {
    if LooksUp(s, s', id) && !Registered(s', st) {
      assert IsUnmaking(s', id, st);
    }
  }

  lemma DeleteKeepsHub(s: State, s': State, id: nat, other: nat, st: StreamId)
    requires ProcessStep(s, s', id) && IsUnmaking(s, other, st) && !s'.panicked
    ensures st in s'.hubDone || IsUnmaking(s', other, st)
  {
    if id != other {
      OthersStay(s, s', id, other);
    } else {
      OwnDeleteKeepsHub(s, s', id, st);
    }
  }

  lemma OwnDeleteKeepsHub(s: State, s': State, id: nat, st: StreamId)
    requires ProcessStep(s, s', id) && IsUnmaking(s, id, st) && !s'.panicked
    ensures st in s'.hubDone || IsUnmaking(s', id, st)
  {}

  lemma ProcessKeepsHub(s: State, s': State, id: nat, st: StreamId)
    requires StreamsInv(s) && ProcessStep(s, s', id) && HubAccounted(s, st) && !s'.panicked
    ensures HubAccounted(s', st)
  {
    if Registered(s, st) {
      EntryKeepsHub(s, s', id, st);
    } else if other :| IsUnmaking(s, other, st) {
      DeleteKeepsHub(s, s', id, other, st);
    }
  }

  lemma InsertedIsRegistered(s: State, s': State, id: nat, st: StreamId)
    requires ProcessStep(s, s', id) && st in s'.inserted && st !in s.inserted
    ensures Registered(s', st)
  {}

  lemma RestKeepsHub(s: State, s': State, st: StreamId)
    requires HubAccounted(s, st)
    requires (exists id, want :: CreateStarts(s, s', id, want)) || (exists id, port :: DeleteStarts(s, s', id, port))
          || (exists id :: RequestEnds(s, s', id)) || (exists other :: ReaderFails(s, s', other))
    ensures HubAccounted(s', st)
  {
    if id :| IsUnmaking(s, id, st) {
      assert IsUnmaking(s', id, st);
    }
  }

  lemma StepKeepsHubs(s: State, s': State)
    requires Inv(s) && Hubs(s) && Step(s, s')
    ensures Inv(s') && Hubs(s')
  {
    StepKeepsInv(s, s');
    forall st <- s'.inserted ensures HubAccounted(s', st) {
      if id :| ProcessStep(s, s', id) {
        if st in s.inserted {
          ProcessKeepsHub(s, s', id, st);
        } else {
          InsertedIsRegistered(s, s', id, st);
        }
      } else {
        RestKeepsHub(s, s', st);
      }
    }
  }

  lemma {:induction false} RunKeepsHubs(run: seq<State>)
    requires IsRun(run)
    ensures Inv(run[|run| - 1]) && Hubs(run[|run| - 1])
  {
    if |run| == 1 {
      InitInv();
    } else {
      var front := run[..|run| - 1];
      assert IsRun(front);
      RunKeepsHubs(front);
      assert Step(run[|run| - 2], run[|run| - 2 + 1]);
      StepKeepsHubs(run[|run| - 2], run[|run| - 1]);
    }
  }

  /** Unless another stream took its entry, a stream's hub was told to stop exactly when the stream is out of
      the map and no delete is still at it. */
  lemma HubsStopExactly(s: State, st: StreamId)
    requires Reachable(s) && st in s.inserted && st !in s.overwritten
    ensures st in s.hubDone <==> !Registered(s, st) && forall id :: !IsUnmaking(s, id, st)
  {
    var run :| IsRun(run) && run[|run| - 1] == s;
    RunKeepsHubs(run);
  }
}

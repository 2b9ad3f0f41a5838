/** Who answers for an open socket, in every interleaving of requests. */
module RegistrySockets {
  import opened Wrappers
  import opened RegistryInvariant
  import opened RegistryMachine

  ghost predicate IsMaking(s: State, id: nat, st: StreamId) {
    id in s.processes && Making(s.processes[id]) == Some(st)
  }

  ghost predicate IsClosing(s: State, id: nat, st: StreamId) {
    id in s.processes && s.processes[id] == Delete(ConnClosing(st))
  }

  /** The stream of an open socket is being made, or registered, or about to be closed by a delete. */
  ghost predicate AnsweredFor(s: State, st: StreamId) {
    if st in s.inserted then Registered(s, st) || exists id :: IsClosing(s, id, st)
    else exists id :: IsMaking(s, id, st)
  }

  /** A failed reader's socket stays closed; a port with an entry is bound by that entry's stream, or by one
      still being made. */
  ghost predicate Sockets(s: State) {
    && (forall st <- s.failedReaders :: !HasSocket(s, st))
    && (forall port <- s.bound :: AnsweredFor(s, s.bound[port]))
    && (forall port <- s.bound :: port in s.streams && s.bound[port] in s.inserted ==> s.bound[port] == s.streams[port])
  }

  /** Nothing changes for other streams: same sockets or fewer, same entries, and the same makers and closers. */
  ghost predicate SameAnswer(s: State, s': State, st: StreamId) {
    && (st in s'.inserted <==> st in s.inserted) && (Registered(s, st) ==> Registered(s', st))
    && (forall id :: IsMaking(s, id, st) ==> IsMaking(s', id, st))
    && (forall id :: IsClosing(s, id, st) ==> IsClosing(s', id, st))
  }

  lemma SameAnswerKeeps(s: State, s': State, st: StreamId)
    requires AnsweredFor(s, st) && SameAnswer(s, s', st)
    ensures AnsweredFor(s', st)
  {}

  lemma ListensKeeps(s: State, s': State, id: nat, st: StreamId, port: Port)
    requires Inv(s) && Sockets(s) && Listens(s, s', id, st, port)
    ensures Sockets(s')
  {
    assert IsMaking(s', id, st);
    forall p | p in s'.bound && p != port ensures AnsweredFor(s', s'.bound[p]) {
      SameAnswerKeeps(s, s', s.bound[p]);
    }
  }

  lemma TracksMadeKeeps(s: State, s': State, id: nat)
    requires Inv(s) && Sockets(s) && TracksMade(s, s', id)
    ensures Sockets(s')
  {
    forall p <- s'.bound ensures AnsweredFor(s', s'.bound[p]) {
      SameAnswerKeeps(s, s', s.bound[p]);
    }
  }

  lemma TracksFailKeeps(s: State, s': State, id: nat)
    requires Inv(s) && Sockets(s) && TracksFail(s, s', id)
    ensures Sockets(s')
  {
    forall p <- s'.bound ensures AnsweredFor(s', s'.bound[p]) {
      SameAnswerKeeps(s, s', s.bound[p]);
    }
  }

  lemma InsertsKeeps(s: State, s': State, id: nat)
    requires Inv(s) && Sockets(s) && Inserts(s, s', id)
    ensures Sockets(s')
  {
    var st := s.processes[id].create.st;
    forall p | p in s'.bound && s'.bound[p] != st ensures AnsweredFor(s', s'.bound[p]) {
      SameAnswerKeeps(s, s', s.bound[p]);
    }
  }

  lemma LooksUpKeeps(s: State, s': State, id: nat)
    requires Inv(s) && Sockets(s) && LooksUp(s, s', id)
    ensures Sockets(s')
  {
    var port := s.processes[id].delete.port;
    if port in s.streams {
      assert IsClosing(s', id, s.streams[port]);
    }
    forall p | p in s'.bound && (port in s.streams ==> s'.bound[p] != s.streams[port])
      ensures AnsweredFor(s', s'.bound[p])
    {
      SameAnswerKeeps(s, s', s.bound[p]);
    }
  }

  lemma ClosesConnAnswersSame(s: State, s': State, id: nat, st: StreamId)
    requires ClosesConn(s, s', id) && st != s.processes[id].delete.st
    ensures SameAnswer(s, s', st)
  {}

  lemma ClosesConnKeeps(s: State, s': State, id: nat)
    requires SocketsInv(s) && Sockets(s) && ClosesConn(s, s', id)
    ensures Sockets(s')
  {
    forall p <- s'.bound ensures AnsweredFor(s', s'.bound[p]) {
      ClosesConnAnswersSame(s, s', id, s.bound[p]);
      SameAnswerKeeps(s, s', s.bound[p]);
    }
  }

  lemma QuietAnswersSame(s: State, s': State, id: nat, st: StreamId)
    requires ListenFails(s, s', id) || TestsHub(s, s', id) || ClosesHub(s, s', id)
    ensures SameAnswer(s, s', st)
  {}

  lemma QuietKeeps(s: State, s': State, id: nat)
    requires Sockets(s) && (ListenFails(s, s', id) || TestsHub(s, s', id) || ClosesHub(s, s', id))
    ensures Sockets(s')
  {
    forall p <- s'.bound ensures AnsweredFor(s', s'.bound[p]) {
      QuietAnswersSame(s, s', id, s.bound[p]);
      SameAnswerKeeps(s, s', s.bound[p]);
    }
  }

  lemma StartsKeeps(s: State, s': State, id: nat, port: Port)
    requires Inv(s) && Sockets(s) && (CreateStarts(s, s', id, port) || DeleteStarts(s, s', id, port))
    ensures Sockets(s')
  {
    forall p <- s'.bound ensures AnsweredFor(s', s'.bound[p]) {
      SameAnswerKeeps(s, s', s.bound[p]);
    }
  }

  lemma EndsKeeps(s: State, s': State, id: nat)
    requires Inv(s) && Sockets(s) && RequestEnds(s, s', id)
    ensures Sockets(s')
  {
    forall p <- s'.bound ensures AnsweredFor(s', s'.bound[p]) {
      SameAnswerKeeps(s, s', s.bound[p]);
    }
  }

  lemma ReaderFailsKeeps(s: State, s': State, st: StreamId)
    requires Inv(s) && Sockets(s) && ReaderFails(s, s', st)
    ensures Sockets(s')
  {
    forall p <- s'.bound ensures AnsweredFor(s', s'.bound[p]) {
      SameAnswerKeeps(s, s', s.bound[p]);
    }
  }

  lemma ProcessKeeps(s: State, s': State, id: nat)
    requires Inv(s) && Sockets(s) && ProcessStep(s, s', id)
    ensures Sockets(s')
  {
    if st, port :| Listens(s, s', id, st, port) {
      ListensKeeps(s, s', id, st, port);
    } else if TracksMade(s, s', id) {
      TracksMadeKeeps(s, s', id);
    } else if TracksFail(s, s', id) {
      TracksFailKeeps(s, s', id);
    } else if Inserts(s, s', id) {
      InsertsKeeps(s, s', id);
    } else if LooksUp(s, s', id) {
      LooksUpKeeps(s, s', id);
    } else if ClosesConn(s, s', id) {
      ClosesConnKeeps(s, s', id);
    } else {
      QuietKeeps(s, s', id);
    }
  }

  lemma StepKeeps(s: State, s': State)
    requires Inv(s) && Sockets(s) && Step(s, s')
    ensures Inv(s') && Sockets(s')
  {
    StepKeepsInv(s, s');
    if id :| ProcessStep(s, s', id) {
      ProcessKeeps(s, s', id);
    } else if id, want :| CreateStarts(s, s', id, want) {
      StartsKeeps(s, s', id, want);
    } else if id, port :| DeleteStarts(s, s', id, port) {
      StartsKeeps(s, s', id, port);
    } else if id :| RequestEnds(s, s', id) {
      EndsKeeps(s, s', id);
    } else {
      var st :| ReaderFails(s, s', st);
      ReaderFailsKeeps(s, s', st);
    }
  }

  lemma {:induction false} RunKeepsSockets(run: seq<State>)
    requires IsRun(run)
    ensures Inv(run[|run| - 1]) && Sockets(run[|run| - 1])
  {
    if |run| == 1 {
      InitInv();
    } else {
      var front := run[..|run| - 1];
      assert IsRun(front);
      RunKeepsSockets(front);
      assert Step(run[|run| - 2], run[|run| - 2 + 1]);
      StepKeeps(run[|run| - 2], run[|run| - 1]);
    }
  }

  /** Every open socket belongs to a stream that is being made, is registered, or is about to be closed. */
  lemma SocketsAnsweredFor(s: State)
    requires Reachable(s)
    ensures Inv(s) && Sockets(s)
  {
    var run :| IsRun(run) && run[|run| - 1] == s;
    RunKeepsSockets(run);
  }
}

/** When the hub's Run loop gets back to its select, exactly. */
module HubProgress {
  import opened AtomicHub
  import opened HubInvariant
  import opened HubMachine
  import opened HubTheorems

  predicate AtRest(s: State) {
    s.run.Select? || s.run.RunReturned?
  }

  /** The clients some goroutine inside the read lock is bound to send to. */
  function SenderGoals(s: State): set<Client> {
    set g | g in s.senders && Bound(s, s.senders[g]) :: s.senders[g].c
  }

  predicate Bound(s: State, p: SenderPc) {
    p.Sending? || (p.Checking? && p.c in s.clients)
  }

  /** Run will need every reader out before it is back. */
  predicate WillWrite(s: State) {
    match s.run
    case RegWant(_) => true
    case RegWait(_) => true
    case UnregWant(c) => c in s.clients
    case UnregHeld(c) => c in s.clients
    case UnregRelease(_, found) => found
    case DelWant(_) => true
    case DelWait(_) => true
    case DoneWant => true
    case DoneWait => true
    case _ => false
  }

  /** The clients that must still be receiving for Run to get back to its select. */
  function Needed(s: State): set<Client> {
    match s.run
    case CastWant(_) => s.clients
    case CastLoop(_, todo) => todo
    case CastSend(_, c, todo) => {c} + todo
    case _ => if WillWrite(s) then SenderGoals(s) else {}
  }

  // ---- the measure ----

  /** The steps Run has left in its branch. */
  function RunWork(s: State): nat {
    match s.run
    case Select => 0
    case RunReturned => 0
    case RegWant(_) => 8
    case RegWait(_) => 7
    case RegHeld(_) => 6
    case RegUnlock(_) => 5
    case InfoWant => 4
    case InfoHeld => 3
    case InfoRelease(_) => 2
    case InfoSpawn(_) => 1
    case UnregWant(_) => 12
    case UnregHeld(_) => 11
    case UnregRelease(_, _) => 10
    case DelWant(_) => 9
    case DelWait(_) => 8
    case DelHeld(_) => 7
    case DelUnlock(_) => 6
    case CloseSend(_) => 5
    case CastWant(_) => 2 * |s.clients| + 2
    case CastLoop(_, todo) => 2 * |todo| + 1
    case CastSend(_, _, todo) => 2 * |todo| + 2
    case DoneWant => 2 * |s.clients| + 3
    case DoneWait => 2 * |s.clients| + 2
    case DoneLoop => 2 * |s.clients| + 1
    case DoneDelete(_) => 2 * |s.clients|
  }

  function CheckingSenders(s: State): set<nat> {
    set g | g in s.senders && s.senders[g].Checking?
  }

  function SendingSenders(s: State): set<nat> {
    set g | g in s.senders && s.senders[g].Sending?
  }

  function ReleasingSenders(s: State): set<nat> {
    set g | g in s.senders && s.senders[g].Releasing?
  }

  /** The steps the goroutines inside the read lock have left. */
  function ReaderWork(s: State): nat {
    3 * |CheckingSenders(s)| + 2 * |SendingSenders(s)| + |ReleasingSenders(s)|
  }

  // ---- Run's own steps ----

  predicate WantsRead(pc: RunPc) {
    pc.InfoWant? || pc.UnregWant? || pc.CastWant?
  }

  /** Nothing stands in the way of Run's next step. */
  predicate Ready(s: State) {
    && (WantsRead(s.run) ==> CanRead(s.lock))
    && (Pends(s.run) ==> s.lock.readers == {})
    && (s.run.CastSend? ==> s.run.c in s.listening && s.run.c !in s.closed)
  }

  predicate Closer(s: State, s': State) {
    RunWork(s') < RunWork(s) && s'.listening == s.listening && Needed(s') <= Needed(s)
  }

  lemma RegisterCanStep(s: State) returns (s': State)
    requires Ready(s) && (s.run.RegWant? || s.run.RegWait? || s.run.RegHeld? || s.run.RegUnlock?)
    ensures RunRegisterBranch(s, s')
  {
    match s.run
    case RegWant(c) => s' := RunAnnounces(s, RegWait(c));
    case RegWait(c) => s' := s.(run := RegHeld(c), lock := s.lock.(writer := true, pending := false));
    case RegHeld(c) => s' := s.(run := RegUnlock(c), clients := s.clients + {c}, events := s.events + [Admitted(c)]);
    case RegUnlock(c) => s' := RunWriteUnlocks(s, InfoWant);
  }

  lemma RegisterCloser(s: State, s': State)
    requires RunRegisterBranch(s, s')
    ensures Closer(s, s')
  {}

  lemma InfoCanStep(s: State) returns (s': State)
    requires Ready(s) && (s.run.InfoWant? || s.run.InfoHeld? || s.run.InfoRelease? || s.run.InfoSpawn?)
    ensures RunInfoBranch(s, s')
  {
    match s.run
    case InfoWant => s' := s.(run := InfoHeld, lock := ReadLocked(s.lock, RunHolder));
    case InfoHeld => s' := s.(run := InfoRelease(|s.clients|));
    case InfoRelease(n) => s' := RunReadUnlocks(s, InfoSpawn(n));
    case InfoSpawn(n) => s' := s.(run := Select, infos := s.infos + multiset{n});
  }

  lemma InfoCloser(s: State, s': State)
    requires RunInfoBranch(s, s')
    ensures Closer(s, s')
  {}

  lemma UnregisterCanStep(s: State) returns (s': State)
    requires Ready(s) && (s.run.UnregWant? || s.run.UnregHeld? || s.run.UnregRelease?)
    ensures RunUnregisterBranch(s, s')
  {
    match s.run
    case UnregWant(c) => s' := s.(run := UnregHeld(c), lock := ReadLocked(s.lock, RunHolder));
    case UnregHeld(c) => s' := s.(run := UnregRelease(c, c in s.clients));
    case UnregRelease(c, found) => s' := RunReadUnlocks(s, if found then DelWant(c) else Select);
  }

  lemma UnregisterCloser(s: State, s': State)
    requires RunUnregisterBranch(s, s')
    ensures Closer(s, s')
  {}

  lemma DeleteCanStep(s: State) returns (s': State)
    requires Ready(s) && (s.run.DelWant? || s.run.DelWait? || s.run.DelHeld? || s.run.DelUnlock? || s.run.CloseSend?)
    ensures RunDeleteBranch(s, s')
  {
    match s.run
    case DelWant(c) => s' := RunAnnounces(s, DelWait(c));
    case DelWait(c) => s' := s.(run := DelHeld(c), lock := s.lock.(writer := true, pending := false));
    case DelHeld(c) => s' := s.(run := DelUnlock(c), clients := s.clients - {c}, events := s.events + [Removed(c)]);
    case DelUnlock(c) => s' := RunWriteUnlocks(s, CloseSend(c));
    case CloseSend(c) => s' := Close(s, c).(run := InfoWant);
  }

  lemma DeleteCloser(s: State, s': State)
    requires RunDeleteBranch(s, s')
    ensures Closer(s, s')
  {}

  lemma CastCanStep(s: State) returns (s': State)
    requires Ready(s) && (s.run.CastWant? || s.run.CastLoop? || s.run.CastSend?)
    ensures RunCastBranch(s, s')
  {
    match s.run
    case CastWant(m) =>
      s' := s.(run := CastLoop(m, s.clients), lock := ReadLocked(s.lock, RunHolder));
    case CastLoop(m, todo) =>
      if todo == {} {
        s' := RunReadUnlocks(s, Select);
      } else {
        var c :| c in todo;
        s' := s.(run := CastSend(m, c, todo - {c}));
      }
    case CastSend(m, c, todo) =>
      s' := s.(run := CastLoop(m, todo), log := Append(s.log, c, m));
      assert s'.(run := s.run) == s.(log := Append(s.log, c, m));
  }

  lemma RemoveOne<T>(s: set<T>, x: T)
    requires x in s
    ensures |s - {x}| == |s| - 1
  {}

  lemma CastPickCloser(s: State, m: Message, c: Client, todo: set<Client>)
    requires s.run == CastLoop(m, todo) && c in todo
    ensures Closer(s, s.(run := CastSend(m, c, todo - {c})))
  {
    RemoveOne(todo, c);
  }

  lemma CastLoopCloser(s: State, s': State)
    requires RunCastBranch(s, s') && s.run.CastLoop?
    ensures Closer(s, s')
  {
    if s.run.todo != {} {
      CastPickCloser(s, s.run.m, s'.run.c, s.run.todo);
    }
  }

  lemma CastCloser(s: State, s': State)
    requires RunCastBranch(s, s')
    ensures Closer(s, s')
  {
    if s.run.CastLoop? {
      CastLoopCloser(s, s');
    }
  }

  lemma DoneCanStep(s: State) returns (s': State)
    requires Ready(s) && (s.run.DoneWant? || s.run.DoneWait? || s.run.DoneLoop? || s.run.DoneDelete?)
    ensures RunDoneBranch(s, s')
  {
    match s.run
    case DoneWant => s' := RunAnnounces(s, DoneWait);
    case DoneWait => s' := s.(run := DoneLoop, lock := s.lock.(writer := true, pending := false));
    case DoneLoop =>
      if s.clients == {} {
        s' := RunWriteUnlocks(s, RunReturned);
      } else {
        var c :| c in s.clients;
        s' := Close(s, c).(run := DoneDelete(c));
      }
    case DoneDelete(c) =>
      s' := s.(run := DoneLoop, clients := s.clients - {c});
  }

  lemma DoneDeleteCloser(s: State, s': State)
    requires RunDoneBranch(s, s') && s.run.DoneDelete? && s.run.c in s.clients
    ensures Closer(s, s')
  {
    RemoveOne(s.clients, s.run.c);
  }

  lemma DoneLoopCloser(s: State, s': State)
    requires RunDoneBranch(s, s') && s.run.DoneLoop?
    ensures Closer(s, s')
  {}

  lemma DoneCloser(s: State, s': State)
    requires RunDoneBranch(s, s') && (s.run.DoneDelete? ==> s.run.c in s.clients)
    ensures Closer(s, s')
  {
    if s.run.DoneDelete? {
      DoneDeleteCloser(s, s');
    } else if s.run.DoneLoop? {
      DoneLoopCloser(s, s');
    }
  }

  lemma SafeIsReady(s: State)
    requires Safe(s) && Needed(s) <= s.listening && (Pends(s.run) ==> s.lock.readers == {})
    ensures Ready(s)
    ensures s.run.DoneDelete? ==> s.run.c in s.clients
  {
    ClosedIsOut(s);
    if s.run.DoneDelete? {
      assert s.run.c in s.clients * s.closed;
    }
  }

  lemma RunProgress(s: State) returns (s': State)
    requires Ready(s) && !AtRest(s) && (s.run.DoneDelete? ==> s.run.c in s.clients)
    ensures RunInBranch(s, s') && Closer(s, s')
  {
    if s.run.RegWant? || s.run.RegWait? || s.run.RegHeld? || s.run.RegUnlock? {
      s' := RegisterCanStep(s);
      RegisterCloser(s, s');
    } else if s.run.InfoWant? || s.run.InfoHeld? || s.run.InfoRelease? || s.run.InfoSpawn? {
      s' := InfoCanStep(s);
      InfoCloser(s, s');
    } else if s.run.UnregWant? || s.run.UnregHeld? || s.run.UnregRelease? {
      s' := UnregisterCanStep(s);
      UnregisterCloser(s, s');
    } else if s.run.DelWant? || s.run.DelWait? || s.run.DelHeld? || s.run.DelUnlock? || s.run.CloseSend? {
      s' := DeleteCanStep(s);
      DeleteCloser(s, s');
    } else if s.run.CastWant? || s.run.CastLoop? || s.run.CastSend? {
      s' := CastCanStep(s);
      CastCloser(s, s');
    } else {
      s' := DoneCanStep(s);
      DoneCloser(s, s');
    }
  }

  // ---- readers making way for a waiting writer ----

  lemma CheckingWork(s: State, s': State, g: nat)
    requires SenderStep(s, s', g) && s.senders[g].Checking?
    ensures ReaderWork(s') < ReaderWork(s)
  {
    assert CheckingSenders(s') == CheckingSenders(s) - {g};
    if s'.senders[g].Sending? {
      assert SendingSenders(s') == SendingSenders(s) + {g};
      assert ReleasingSenders(s') == ReleasingSenders(s);
    } else {
      assert SendingSenders(s') == SendingSenders(s);
      assert ReleasingSenders(s') == ReleasingSenders(s) + {g};
    }
  }

  lemma SendingWork(s: State, s': State, g: nat)
    requires SenderStep(s, s', g) && s.senders[g].Sending?
    ensures ReaderWork(s') < ReaderWork(s)
  {
    assert CheckingSenders(s') == CheckingSenders(s);
    assert SendingSenders(s') == SendingSenders(s) - {g};
    assert ReleasingSenders(s') == ReleasingSenders(s) + {g};
  }

  lemma ReleasingWork(s: State, s': State, g: nat)
    requires SenderStep(s, s', g) && s.senders[g].Releasing?
    ensures ReaderWork(s') < ReaderWork(s)
  {
    assert CheckingSenders(s') == CheckingSenders(s);
    assert SendingSenders(s') == SendingSenders(s);
    assert ReleasingSenders(s') == ReleasingSenders(s) - {g};
  }

  /** A goroutine inside the read lock gets closer to leaving it with every step. */
  lemma SenderStepWork(s: State, s': State, g: nat)
    requires SenderStep(s, s', g) && !s.senders[g].Wanting?
    ensures ReaderWork(s') < ReaderWork(s)
  {
    match s.senders[g]
    case Checking(_, _) => CheckingWork(s, s', g);
    case Sending(_, _) => SendingWork(s, s', g);
    case Releasing => ReleasingWork(s, s', g);
  }

  lemma SenderCanStep(s: State, g: nat) returns (s': State)
    requires g in s.senders && !s.senders[g].Wanting?
    requires s.senders[g].Sending? ==> s.senders[g].c in s.listening && s.senders[g].c !in s.closed
    ensures SenderStep(s, s', g)
    ensures s'.run == s.run && s'.clients == s.clients && s'.listening == s.listening
    ensures SenderGoals(s') <= SenderGoals(s)
  {
    match s.senders[g]
    case Checking(c, m) =>
      s' := s.(senders := s.senders[g := if c in s.clients then Sending(c, m) else Releasing]);
    case Sending(c, m) =>
      s' := s.(senders := s.senders[g := Releasing], log := Append(s.log, c, m));
      assert s'.(senders := s.senders) == s.(log := Append(s.log, c, m));
    case Releasing =>
      s' := s.(senders := s.senders - {g}, lock := ReadUnlocked(s.lock, SenderHolder(g)));
  }

  lemma ReaderProgress(s: State) returns (s': State, g: nat)
    requires Safe(s) && Pends(s.run) && s.lock.readers != {} && Needed(s) <= s.listening
    ensures SenderStep(s, s', g) && ReaderWork(s') < ReaderWork(s)
    ensures s'.run == s.run && s'.clients == s.clients && s'.listening == s.listening && Needed(s') <= Needed(s)
  {
    var h :| h in s.lock.readers;
    assert h != RunHolder;
    g := h.g;
    SendersAreSafe(s);
    assert s.senders[g].Sending? ==> s.senders[g].c in SenderGoals(s);
    s' := SenderCanStep(s, g);
    SenderStepWork(s, s', g);
  }

  /** As long as every client Run needs is still listening, some step of Run, or of a goroutine that
      keeps Run waiting, brings Run closer to its select. */
  lemma HelpfulStep(s: State) returns (s': State)
    requires Reachable(s) && !AtRest(s) && Needed(s) <= s.listening
    ensures Step(s, s') && Needed(s') <= s'.listening
    ensures RunWork(s') < RunWork(s) || (RunWork(s') == RunWork(s) && ReaderWork(s') < ReaderWork(s))
  {
    ReachableInv(s);
    if Pends(s.run) && s.lock.readers != {} {
      var g;
      s', g := ReaderProgress(s);
    } else {
      SafeIsReady(s);
      s' := RunProgress(s);
    }
  }

  lemma {:induction false} PathToSelect(s: State) returns (path: seq<State>)
    requires Reachable(s) && Needed(s) <= s.listening
    ensures IsPath(path) && path[0] == s && AtRest(path[|path| - 1])
    decreases RunWork(s), ReaderWork(s)
  {
    if AtRest(s) {
      path := [s];
    } else {
      var s' := HelpfulStep(s);
      StepIsReachable(s, s');
      var rest := PathToSelect(s');
      path := [s] + rest;
      PathCons(s, rest);
    }
  }

  lemma PathCons(s: State, rest: seq<State>)
    requires IsPath(rest) && Step(s, rest[0])
    ensures IsPath([s] + rest)
  {
    var path := [s] + rest;
    forall i | 0 <= i < |path| - 1 ensures Step(path[i], path[i + 1]) {
      if i > 0 {
        assert path[i] == rest[i - 1] && path[i + 1] == rest[i - 1 + 1];
      }
    }
  }

  /** Nothing the other goroutines do pushes Run back: its own work stays, and once it waits
      for the write lock no new reader adds to what it waits for. */
  lemma OthersDoNotHinder(s: State, s': State)
    requires Reachable(s) && Step(s, s') && !RunStep(s, s')
    ensures RunWork(s') == RunWork(s)
    ensures Pends(s.run) ==> ReaderWork(s') <= ReaderWork(s)
  {
    ReachableInv(s);
    if g :| SenderStep(s, s', g) {
      SenderFrame(s, s', g);
      if Pends(s.run) {
        SenderStepWork(s, s', g);
      }
    } else {
      OutsideFrame(s, s');
      OutsideReaders(s, s');
    }
  }

  lemma OutsideReaders(s: State, s': State)
    requires OutsideStep(s, s')
    ensures ReaderWork(s') == ReaderWork(s)
  {
    OutsideKeepsSenders(s, s');
    assert CheckingSenders(s') == CheckingSenders(s);
    assert SendingSenders(s') == SendingSenders(s);
    assert ReleasingSenders(s') == ReleasingSenders(s);
  }

  // ---- and when a write loop is gone ----

  lemma NeededAreClients(s: State)
    requires Safe(s)
    ensures Needed(s) <= s.clients <= s.sent
  {}

  /** Run still needs a client that no longer listens. */
  predicate Blocked(s: State) {
    !(Needed(s) <= s.listening)
  }

  lemma CastStaysBlocked(s: State, s': State, c: Client)
    requires RunCastBranch(s, s') && c in Needed(s) && c !in s.listening && c !in s.closed
    ensures c in Needed(s') && !AtRest(s')
  {}

  lemma WriterStaysBlocked(s: State, s': State)
    requires WillWrite(s) && s.lock.readers != {} && (s.run.UnregRelease? ==> s.run.found)
    requires RunRegisterBranch(s, s') || RunDeleteBranch(s, s') || RunDoneBranch(s, s') || RunUnregisterBranch(s, s')
    ensures WillWrite(s') && s'.senders == s.senders && s'.clients == s.clients && !AtRest(s')
    ensures !s'.run.CastWant? && !s'.run.CastLoop? && !s'.run.CastSend?
  {}

  lemma BranchStaysBlocked(s: State, s': State, c: Client)
    requires RunInBranch(s, s') && WillWrite(s) && c in SenderGoals(s) && s.lock.readers != {}
    requires s.run.UnregRelease? ==> s.run.found
    ensures c in Needed(s') && !AtRest(s')
  {
    WriterStaysBlocked(s, s');
  }

  lemma RunStaysBlocked(s: State, s': State, c: Client)
    requires Safe(s) && !AtRest(s) && RunStep(s, s') && c in Needed(s) && c !in s.listening
    ensures c in Needed(s') && !AtRest(s') && s'.listening == s.listening
  {
    NeededAreClients(s);
    if s.run.CastWant? || s.run.CastLoop? || s.run.CastSend? {
      CastStaysBlocked(s, s', c);
    } else {
      var g :| g in s.senders && Bound(s, s.senders[g]) && s.senders[g].c == c;
      assert SenderHolder(g) in s.lock.readers;
      BranchStaysBlocked(s, s', c);
    }
  }

  lemma SenderStaysBound(s: State, s': State, g: nat, c: Client)
    requires Safe(s) && SenderStep(s, s', g) && c in Needed(s) && c !in s.listening
    ensures c in Needed(s')
  {
    SenderFrame(s, s', g);
    if WillWrite(s) {
      var h :| h in s.senders && Bound(s, s.senders[h]) && s.senders[h].c == c;
      SendersAreSafe(s);
      assert h in s'.senders && Bound(s', s'.senders[h]) && s'.senders[h].c == c;
    }
  }

  lemma OutsideStaysBound(s: State, s': State, c: Client)
    requires OutsideStep(s, s') && c in Needed(s) && c in s.sent && c !in s.listening
    ensures c in Needed(s') && c !in s'.listening
  {
    OutsideFrame(s, s');
    OutsideKeepsSenders(s, s');
    if WillWrite(s) {
      var h :| h in s.senders && Bound(s, s.senders[h]) && s.senders[h].c == c;
      assert h in s'.senders && Bound(s', s'.senders[h]) && s'.senders[h].c == c;
    }
  }

  /** A write loop that has exited never comes back: once Run needs it, Run is stuck in its branch for good. */
  lemma BlockedStays(s: State, s': State)
    requires Reachable(s) && Step(s, s') && !AtRest(s) && Blocked(s)
    ensures !AtRest(s') && Blocked(s')
  {
    ReachableInv(s);
    NeededAreClients(s);
    var c :| c in Needed(s) && c !in s.listening;
    if RunStep(s, s') {
      RunStaysBlocked(s, s', c);
    } else if g :| SenderStep(s, s', g) {
      SenderFrame(s, s', g);
      SenderStaysBound(s, s', g, c);
    } else {
      OutsideFrame(s, s');
      OutsideStaysBound(s, s', c);
    }
  }

  lemma {:induction false} BlockedForever(path: seq<State>)
    requires IsPath(path) && Reachable(path[0]) && !AtRest(path[0]) && Blocked(path[0])
    ensures Reachable(path[|path| - 1]) && !AtRest(path[|path| - 1]) && Blocked(path[|path| - 1])
  {
    if |path| > 1 {
      var front := path[..|path| - 1];
      assert IsPath(front);
      BlockedForever(front);
      var last := |path| - 2;
      assert Step(path[last], path[last + 1]);
      BlockedStays(path[last], path[last + 1]);
      StepIsReachable(path[last], path[last + 1]);
    }
  }

  /** Run can get back to its select (or return) exactly when every client it, or a goroutine
      it has to wait for, is bound to send to is still listening. */
  lemma ReturnsToSelectExactly(s: State)
    requires Reachable(s) && !AtRest(s)
    ensures (exists path :: IsPath(path) && path[0] == s && AtRest(path[|path| - 1])) <==> Needed(s) <= s.listening
  {
    if Needed(s) <= s.listening {
      var path := PathToSelect(s);
    } else {
      forall path | IsPath(path) && path[0] == s ensures !AtRest(path[|path| - 1]) {
        BlockedForever(path);
      }
    }
  }
}

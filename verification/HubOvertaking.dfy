/**
  What an Unregister does. Register and Unregister are separate channels, so Run may take a
  client's Unregister before its Register, and then the client stays.
 */
module HubOvertaking {
  import opened AtomicHub
  import opened HubInvariant
  import opened HubMachine
  import opened HubPaths
  import opened HubProgress
  import opened HubTheorems

  predicate TakesUnregister(s: State, s': State, c: Client) {
    RunUnregisters(s, s') && s.unregister[0] == c
  }

  // ---- one Unregister, from the channel to the next rest ----

  /** Run finds the client exactly when it has taken its Register and not closed it since. */
  lemma FoundExactly(s: State)
    requires Reachable(s) && s.run.UnregHeld?
    ensures s.run.c in s.clients <==> s.run.c in s.consumed && s.run.c !in s.closed
  {
    ReachableInv(s);
  }

  /** Run is dealing with the Unregister of a client whose Register it has taken (`known`) or not. */
  predicate Dealing(s: State, c: Client, known: bool) {
    && (c in s.consumed <==> known)
    && match s.run
       case UnregWant(d) => d == c
       case UnregHeld(d) => d == c
       case UnregRelease(d, found) => d == c && (found <==> c in s.clients)
       case DelWant(d) => d == c
       case DelWait(d) => d == c
       case DelHeld(d) => d == c
       case DelUnlock(d) => d == c
       case CloseSend(d) => d == c
       case InfoWant => c in s.closed
       case InfoHeld => c in s.closed
       case InfoRelease(_) => c in s.closed
       case InfoSpawn(_) => c in s.closed
       case Select => (c in s.closed <==> known) && c !in s.clients
       case _ => false
  }

  lemma SearchDeals(s: State, s': State, c: Client, known: bool)
    requires Conserved(s) && Dealing(s, c, known) && (RunUnregisterBranch(s, s') || RunInfoBranch(s, s'))
    ensures Dealing(s', c, known)
  {}

  lemma DeletionDeals(s: State, s': State, c: Client, known: bool)
    requires Conserved(s) && RunTargets(s) && Dealing(s, c, known) && RunDeleteBranch(s, s')
    requires s.run.CloseSend? ==> !SomeoneSendsTo(s, c)
    ensures Dealing(s', c, known)
  {}

  lemma NobodySendsOutside(s: State, c: Client)
    requires SenderTargets(s) && c !in s.clients
    ensures !SomeoneSendsTo(s, c)
  {}

  lemma BranchDeals(s: State, s': State, c: Client, known: bool)
    requires Safe(s) && Dealing(s, c, known) && !AtRest(s) && RunInBranch(s, s')
    ensures Dealing(s', c, known)
  {
    if RunDeleteBranch(s, s') {
      if s.run.CloseSend? {
        NobodySendsOutside(s, c);
      }
      DeletionDeals(s, s', c, known);
    } else {
      SearchDeals(s, s', c, known);
    }
  }

  lemma StepDeals(s: State, s': State, c: Client, known: bool)
    requires Reachable(s) && Dealing(s, c, known) && !AtRest(s) && Step(s, s')
    ensures Dealing(s', c, known)
  {
    ReachableInv(s);
    if RunStep(s, s') {
      NoSelect(s, s');
      BranchDeals(s, s', c, known);
    } else {
      if g :| SenderStep(s, s', g) {
        SenderFrame(s, s', g);
      } else {
        OutsideFrame(s, s');
      }
      OthersDeal(s, s', c, known);
    }
  }

  lemma NoSelect(s: State, s': State)
    requires RunStep(s, s') && !s.run.Select?
    ensures RunInBranch(s, s')
  {}

  lemma OthersDeal(s: State, s': State, c: Client, known: bool)
    requires Dealing(s, c, known) && SameRun(s, s') && s'.closed == s.closed
    ensures Dealing(s', c, known)
  {}

  lemma {:induction false} PathDeals(path: seq<State>, c: Client, known: bool)
    requires IsPath(path) && Reachable(path[0]) && Dealing(path[0], c, known)
    requires forall i :: 0 <= i < |path| - 1 ==> !AtRest(path[i])
    ensures Dealing(path[|path| - 1], c, known)
    decreases |path|
  {
    if |path| > 1 {
      assert Step(path[0], path[0 + 1]);
      StepDeals(path[0], path[1], c, known);
      StepIsReachable(path[0], path[1]);
      PathTail(path);
      PathDeals(path[1..], c, known);
    }
  }

  /** An Unregister closes its client exactly when Run had taken the client's Register before it. */
  lemma UnregisterClosesExactly(path: seq<State>, c: Client)
    requires IsPath(path) && |path| > 1 && Reachable(path[0]) && TakesUnregister(path[0], path[1], c)
    requires (forall i :: 0 < i < |path| - 1 ==> !AtRest(path[i])) && AtRest(path[|path| - 1])
    ensures c in path[|path| - 1].closed <==> c in path[0].consumed
    ensures c !in path[|path| - 1].clients && path[|path| - 1].run.Select?
  {
    assert Step(path[0], path[0 + 1]);
    StepIsReachable(path[0], path[1]);
    PathTail(path);
    PathDeals(path[1..], c, c in path[0].consumed);
  }

  // ---- an Unregister that came too early ----

  /** Nothing Run is doing will take the client away. */
  predicate Spared(s: State, c: Client) {
    && c !in s.closed
    && match s.run
       case UnregWant(d) => d == c ==> c !in s.clients
       case UnregHeld(d) => d == c ==> c !in s.clients
       case UnregRelease(d, found) => d == c ==> !found
       case DelWant(d) => d != c
       case DelWait(d) => d != c
       case DelHeld(d) => d != c
       case DelUnlock(d) => d != c
       case CloseSend(d) => d != c
       case DoneWant => false
       case DoneWait => false
       case DoneLoop => false
       case DoneDelete(_) => false
       case RunReturned => false
       case _ => true
  }

  /** No Unregister of the client is taken on the way, and no shutdown begins. */
  ghost predicate Undisturbed(path: seq<State>, c: Client) {
    forall i :: 0 <= i < |path| - 1 ==> !TakesUnregister(path[i], path[i + 1], c) && !RunShutsDown(path[i], path[i + 1])
  }

  lemma SelectSpares(s: State, s': State, c: Client)
    requires RunSelects(s, s') && Spared(s, c) && !TakesUnregister(s, s', c) && !RunShutsDown(s, s')
    ensures Spared(s', c) && s'.clients == s.clients
  {}

  lemma ChangesSpare(s: State, s': State, c: Client)
    requires Spared(s, c) && (RunRegisterBranch(s, s') || RunDeleteBranch(s, s'))
    ensures Spared(s', c) && (c in s.clients ==> c in s'.clients)
  {}

  lemma ReadsSpare(s: State, s': State, c: Client)
    requires Spared(s, c) && (RunUnregisterBranch(s, s') || RunInfoBranch(s, s') || RunCastBranch(s, s'))
    ensures Spared(s', c) && (c in s.clients ==> c in s'.clients)
  {}

  lemma BranchSpares(s: State, s': State, c: Client)
    requires RunInBranch(s, s') && Spared(s, c)
    ensures Spared(s', c) && (c in s.clients ==> c in s'.clients)
  {
    if RunRegisterBranch(s, s') || RunDeleteBranch(s, s') {
      ChangesSpare(s, s', c);
    } else {
      ReadsSpare(s, s', c);
    }
  }

  lemma StepSpares(s: State, s': State, c: Client)
    requires Reachable(s) && Step(s, s') && Spared(s, c) && !TakesUnregister(s, s', c) && !RunShutsDown(s, s')
    ensures Spared(s', c) && (c in s.clients ==> c in s'.clients)
  {
    ReachableInv(s);
    if RunInBranch(s, s') {
      BranchSpares(s, s', c);
    } else if RunStep(s, s') {
      SelectSpares(s, s', c);
    } else if g :| SenderStep(s, s', g) {
      SenderFrame(s, s', g);
    } else {
      OutsideFrame(s, s');
    }
  }

  lemma {:induction false} PathSpares(path: seq<State>, c: Client)
    requires IsPath(path) && Reachable(path[0]) && Spared(path[0], c) && Undisturbed(path, c)
    ensures Reachable(path[|path| - 1]) && Spared(path[|path| - 1], c)
    ensures c in path[0].clients ==> c in path[|path| - 1].clients
    decreases |path|
  {
    if |path| > 1 {
      assert Step(path[0], path[0 + 1]);
      assert !TakesUnregister(path[0], path[0 + 1], c) && !RunShutsDown(path[0], path[0 + 1]);
      StepSpares(path[0], path[1], c);
      StepIsReachable(path[0], path[1]);
      TailUndisturbed(path, c);
      PathSpares(path[1..], c);
    }
  }

  lemma TailUndisturbed(path: seq<State>, c: Client)
    requires IsPath(path) && |path| > 1 && Undisturbed(path, c)
    ensures IsPath(path[1..]) && Undisturbed(path[1..], c) && path[1..][|path| - 2] == path[|path| - 1]
  {
    PathTail(path);
    forall i | 0 <= i < |path| - 2
      ensures !TakesUnregister(path[1..][i], path[1..][i + 1], c) && !RunShutsDown(path[1..][i], path[1..][i + 1])
    {
      assert !TakesUnregister(path[i + 1], path[i + 1 + 1], c) && !RunShutsDown(path[i + 1], path[i + 1 + 1]);
    }
  }

  /** A member stays one until an Unregister of it is taken or the hub shuts down. */
  lemma MemberStays(path: seq<State>, c: Client)
    requires IsPath(path) && Reachable(path[0]) && path[0].run.Select? && c in path[0].clients && Undisturbed(path, c)
    ensures c in path[|path| - 1].clients && c !in path[|path| - 1].closed
  {
    ReachableInv(path[0]);
    PathSpares(path, c);
  }

  /**
    An Unregister taken before its Register is lost: until another one is taken, or the hub shuts down, the
    client is never closed, and whenever Run rests it is a member exactly when its Register has been taken.
   */
  lemma EarlyUnregisterIsLost(path: seq<State>, c: Client)
    requires IsPath(path) && |path| > 1 && Reachable(path[0])
    requires TakesUnregister(path[0], path[1], c) && c !in path[0].consumed
    requires Undisturbed(path[1..], c)
    ensures c !in path[|path| - 1].closed
    ensures AtRest(path[|path| - 1]) ==> (c in path[|path| - 1].clients <==> c in path[|path| - 1].consumed)
  {
    ReachableInv(path[0]);
    assert Step(path[0], path[0 + 1]);
    StepIsReachable(path[0], path[1]);
    PathTail(path);
    PathSpares(path[1..], c);
    ReachableInv(path[|path| - 1]);
  }

  // ---- and it does happen ----

  /** Run's steps when it takes the Unregister first: the client is not there yet. */
  lemma UnregisterFirst(s: State, c: Client) returns (path: seq<State>)
    requires !s.panicked && s.run.Select? && CanRead(s.lock) && s.lock.readers == {}
    requires s.unregister == [c] && c !in s.clients
    ensures IsPath(path) && |path| == 5 && path[0] == s && TakesUnregister(path[0], path[1], c)
    ensures path[4] == s.(unregister := [])
  {
    var s1 := s.(run := UnregWant(c), unregister := []);
    var s2 := s1.(run := UnregHeld(c), lock := ReadLocked(s.lock, RunHolder));
    var s3 := s2.(run := UnregRelease(c, false));
    var s4 := s3.(run := Select, lock := ReadUnlocked(s3.lock, RunHolder));
    assert RunUnregisters(s, s1);
    assert RunUnregisterBranch(s1, s2);
    assert RunUnregisterBranch(s2, s3);
    assert RunUnregisterBranch(s3, s4);
    assert s4.lock == s.lock;
    path := [s, s1, s2, s3, s4];
  }

  /** A client registers, and unregisters at once. */
  lemma ConnectsAndLeaves(c: Client) returns (path: seq<State>)
    ensures IsPath(path) && |path| == 4 && path[0] == INITIAL
    ensures RegisterSent(path[1], path[2], c) && UnregisterSent(path[2], path[3], c)
    ensures path[3] == INITIAL.(listening := {c}, sent := {c}, register := [c], unregister := [c])
  {
    var registered := Connects(c);
    var s3 := registered[2].(unregister := [c]);
    assert UnregisterSent(registered[2], s3, c);
    path := PathJoin(registered, [registered[2], s3]);
  }

  /** The run: the Register is sent, then the Unregister; Run takes the Unregister, then the Register;
      then both channels are empty, Run is back at its select, and the client is in the map. */
  lemma UnregisterCanBeLost(c: Client) returns (run: seq<State>)
    ensures IsRun(run) && |run| > 9
    ensures RegisterSent(run[1], run[2], c) && UnregisterSent(run[2], run[3], c)
    ensures TakesUnregister(run[3], run[4], c) && TakesRegister(run[7], run[8], c)
    ensures var s := run[|run| - 1]; s.run.Select? && s.clients == {c} && s.register == [] && s.unregister == []
  {
    var start := ConnectsAndLeaves(c);
    var first := UnregisterFirst(start[3], c);
    var middle := PathJoin(start, first);
    var second := RegisterNext(first[4], c);
    run := PathJoin(middle, second);
    assert middle[7] == first[4];
    assert run[4] == first[1] && run[8] == second[1];
  }
}

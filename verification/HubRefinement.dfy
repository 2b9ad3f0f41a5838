/**
  Every interleaving of the hub's goroutines looks like an atomic hub: a set with
  admit, remove-and-close, broadcast, direct send and shutdown.

  A broadcast takes effect when its loop is over. Until then the atomic hub lags
  behind the clients already served, which may have received further direct messages.
 */
module HubRefinement {
  import opened AtomicHub
  import opened HubInvariant
  import opened HubMachine
  import opened HubMessages
  import opened HubTheorems

  function Members(s: State): set<Client> {
    if s.run.DoneLoop? || s.run.DoneDelete? then {} else s.clients
  }

  /** The clients that are closed or about to be, with nobody able to reach them. */
  function Finished(s: State): set<Client> {
    match s.run
    case DelUnlock(c) => s.closed + {c}
    case CloseSend(c) => s.closed + {c}
    case DoneLoop => s.closed + s.clients
    case DoneDelete(_) => s.closed + s.clients
    case _ => s.closed
  }

  predicate Broadcasting(s: State) {
    s.run.CastLoop? || s.run.CastSend?
  }

  /** The registered clients the broadcast under way has already reached. */
  function Served(s: State): set<Client> {
    match s.run
    case CastLoop(_, todo) => s.clients - todo
    case CastSend(_, c, todo) => s.clients - todo - {c}
    case _ => {}
  }

  ghost predicate LogsMatch(s: State, h: Hub) {
    forall c: Client ::
      if c in Served(s) then Broadcasting(s) && LogOf(h.log, c) + [s.run.m] <= LogOf(s.log, c)
      else LogOf(h.log, c) == LogOf(s.log, c)
  }

  ghost predicate Looks(s: State, h: Hub) {
    h.members == Members(s) && h.closed == Finished(s) && LogsMatch(s, h)
  }

  /** After the actions the atomic hub looks like `s`, and what they broadcast is what has been announced. */
  ghost predicate Explains(actions: seq<Action>, s: State) {
    Play(actions).Some? && Looks(s, Play(actions).value) && Broadcasts(actions) == Infos(Announced(s))
  }

  /** One more action after which the atomic hub looks like `s'`. */
  lemma Act(actions: seq<Action>, a: Action, s': State) returns (more: seq<Action>)
    requires Play(actions).Some? && Enabled(Play(actions).value, a) && Looks(s', Next(Play(actions).value, a))
    requires !a.BroadcastToAll? && Broadcasts(actions) == Infos(Announced(s'))
    ensures actions <= more && Explains(more, s')
  {
    PlaySnoc(actions, a);
    more := actions + [a];
  }

  // ---- steps the atomic hub does not see ----

  predicate SameView(s: State, s': State) {
    && Members(s') == Members(s) && Finished(s') == Finished(s) && s'.log == s.log
    && Served(s') == Served(s)
    && (Broadcasting(s) && Served(s) != {} ==> Broadcasting(s') && s'.run.m == s.run.m)
  }

  lemma SameViewLooksSame(s: State, s': State, h: Hub)
    requires Looks(s, h) && SameView(s, s')
    ensures Looks(s', h)
  {}

  lemma SelectFrame(s: State, s': State)
    requires RunSelects(s, s')
    ensures s.run.Select? && s'.clients == s.clients && s'.closed == s.closed && s'.log == s.log
    ensures s'.run.RegWant? || s'.run.UnregWant? || s'.run.CastWant? || s'.run.DoneWant?
  {}

  lemma SelectedUnseen(s: State, s': State)
    requires s.run.Select? && s'.clients == s.clients && s'.closed == s.closed && s'.log == s.log
    requires s'.run.RegWant? || s'.run.UnregWant? || s'.run.CastWant? || s'.run.DoneWant?
    ensures SameView(s, s')
  {}

  lemma SelectUnseen(s: State, s': State)
    requires RunSelects(s, s')
    ensures SameView(s, s')
  {
    SelectFrame(s, s');
    SelectedUnseen(s, s');
  }

  lemma RegisterUnseen(s: State, s': State)
    requires RunRegisterBranch(s, s') && !s.run.RegHeld?
    ensures SameView(s, s')
  {}

  lemma InfoUnseen(s: State, s': State)
    requires RunInfoBranch(s, s')
    ensures SameView(s, s')
  {}

  lemma UnregisterUnseen(s: State, s': State)
    requires RunUnregisterBranch(s, s')
    ensures SameView(s, s')
  {}

  lemma DeleteUnseen(s: State, s': State)
    requires RunDeleteBranch(s, s') && !s.run.DelHeld? && !s'.panicked
    ensures SameView(s, s')
  {}

  lemma CastUnseen(s: State, s': State)
    requires RunCastBranch(s, s') && (s.run.CastWant? || (s.run.CastLoop? && s.run.todo != {}))
    requires RunTargets(s)
    ensures SameView(s, s')
  {}

  lemma DoneUnseen(s: State, s': State)
    requires RunDoneBranch(s, s') && !s.run.DoneWait? && !s'.panicked
    requires s.run.DoneDelete? ==> s.run.c in s.closed
    ensures SameView(s, s')
  {}

  lemma OutsideUnseen(s: State, s': State)
    requires OutsideStep(s, s')
    ensures SameView(s, s')
  {
    OutsideFrame(s, s');
  }

  lemma SenderUnseen(s: State, s': State, g: nat)
    requires SenderStep(s, s', g) && !s.senders[g].Sending?
    ensures SameView(s, s')
  {}

  // ---- steps that are one action ----

  lemma InsertAdmits(s: State, s': State, h: Hub)
    requires Looks(s, h) && s.run.RegHeld? && RunRegisterBranch(s, s') && Conserved(s)
    ensures Enabled(h, Admit(s.run.c)) && Looks(s', Next(h, Admit(s.run.c)))
  {}

  lemma DeletionRemoves(s: State, s': State, h: Hub)
    requires Looks(s, h) && s.run.DelHeld? && RunDeleteBranch(s, s') && RunTargets(s)
    ensures Enabled(h, RemoveAndClose(s.run.c)) && Looks(s', Next(h, RemoveAndClose(s.run.c)))
  {}

  lemma WriteLockShutsDown(s: State, s': State, h: Hub)
    requires Looks(s, h) && s.run.DoneWait? && RunDoneBranch(s, s')
    ensures Looks(s', Next(h, Shutdown))
  {}

  lemma DirectSend(s: State, s': State, h: Hub, c: Client, m: Message)
    requires Looks(s, h) && c !in Served(s) && SameRun(s, s') && s'.closed == s.closed
    requires c in s.clients && !s.lock.writer && LockInv(s)
    requires s'.log == Append(s.log, c, m)
    ensures Enabled(h, Direct(c, m)) && Looks(s', Next(h, Direct(c, m)))
  {
    forall d: Client ensures LogOf(Next(h, Direct(c, m)).log, d) == LogOf(h.log, d) + if d == c then [m] else [] {
      LogAfterAppend(h.log, c, m, d);
    }
    forall d: Client ensures LogOf(s'.log, d) == LogOf(s.log, d) + if d == c then [m] else [] {
      LogAfterAppend(s.log, c, m, d);
    }
  }

  /** A direct message to a client the broadcast has reached stays ahead of the atomic hub for now. */
  lemma EarlySend(s: State, s': State, h: Hub, c: Client, m: Message)
    requires Looks(s, h) && c in Served(s) && SameRun(s, s') && s'.closed == s.closed
    requires s'.log == Append(s.log, c, m)
    ensures Looks(s', h)
  {
    forall d: Client ensures LogOf(s'.log, d) == LogOf(s.log, d) + if d == c then [m] else [] {
      LogAfterAppend(s.log, c, m, d);
    }
  }

  lemma BroadcastReachesOne(s: State, s': State, h: Hub)
    requires Looks(s, h) && s.run.CastSend? && RunCastBranch(s, s') && !s'.panicked && RunTargets(s)
    ensures Looks(s', h)
  {
    var c, m := s.run.c, s.run.m;
    assert s'.log == Append(s.log, c, m);
    forall d: Client ensures LogOf(s'.log, d) == LogOf(s.log, d) + if d == c then [m] else [] {
      LogAfterAppend(s.log, c, m, d);
    }
    assert Served(s') == Served(s) + {c};
  }

  // ---- the end of a broadcast ----

  /** Delivers a list of messages to one member. */
  lemma {:induction false} DirectAll(actions: seq<Action>, c: Client, extra: seq<Message>) returns (more: seq<Action>)
    requires Play(actions).Some? && c in Play(actions).value.members
    ensures actions <= more && Play(more).Some? && Broadcasts(more) == Broadcasts(actions)
    ensures var h, h' := Play(actions).value, Play(more).value;
      && h'.members == h.members && h'.closed == h.closed
      && forall d :: LogOf(h'.log, d) == LogOf(h.log, d) + if d == c then extra else []
    decreases |extra|
  {
    if extra == [] {
      more := actions;
    } else {
      var h := Play(actions).value;
      PlaySnoc(actions, Direct(c, extra[0]));
      more := DirectAll(actions + [Direct(c, extra[0])], c, extra[1..]);
      var h' := Play(more).value;
      forall d ensures LogOf(h'.log, d) == LogOf(h.log, d) + if d == c then extra else [] {
        LogAfterAppend(h.log, c, extra[0], d);
        if d == c {
          assert LogOf(h.log, d) + [extra[0]] + extra[1..] == LogOf(h.log, d) + extra;
        } else {
          assert LogOf(h.log, d) + [] + [] == LogOf(h.log, d) + [];
        }
      }
    }
  }

  /** Lets the atomic hub catch up with the direct messages of the clients in `behind`. */
  lemma {:induction false} CatchUp(actions: seq<Action>, target: Log, behind: set<Client>) returns (more: seq<Action>)
    requires Play(actions).Some?
    requires behind <= Play(actions).value.members
    requires forall c :: if c in behind then LogOf(Play(actions).value.log, c) <= LogOf(target, c)
                         else LogOf(Play(actions).value.log, c) == LogOf(target, c)
    ensures actions <= more && Play(more).Some? && Broadcasts(more) == Broadcasts(actions)
    ensures Play(more).value.members == Play(actions).value.members
    ensures Play(more).value.closed == Play(actions).value.closed
    ensures forall c :: LogOf(Play(more).value.log, c) == LogOf(target, c)
    decreases behind
  {
    if behind == {} {
      more := actions;
    } else {
      var c :| c in behind;
      var have, want := LogOf(Play(actions).value.log, c), LogOf(target, c);
      assert want == have + want[|have|..];
      var first := DirectAll(actions, c, want[|have|..]);
      more := CatchUp(first, target, behind - {c});
    }
  }

  lemma ActBroadcast(actions: seq<Action>, m: Message) returns (next: seq<Action>)
    requires Play(actions).Some?
    ensures actions <= next && Play(next).Some? && Play(next).value == Next(Play(actions).value, BroadcastToAll(m))
    ensures Broadcasts(next) == Broadcasts(actions) + [m]
  {
    PlaySnoc(actions, BroadcastToAll(m));
    next := actions + [BroadcastToAll(m)];
  }

  /** At the end of a broadcast the atomic hub, having broadcast, lags behind in direct messages at most. */
  lemma LagsAfterBroadcast(s: State, h: Hub)
    requires Looks(s, h) && s.run.CastLoop? && s.run.todo == {}
    ensures var h' := Next(h, BroadcastToAll(s.run.m));
      && h'.members == s.clients && h'.closed == s.closed
      && forall c :: if c in s.clients then LogOf(h'.log, c) <= LogOf(s.log, c) else LogOf(h'.log, c) == LogOf(s.log, c)
  {
    forall c ensures LogOf(Next(h, BroadcastToAll(s.run.m)).log, c)
                     == LogOf(h.log, c) + if c in h.members then [s.run.m] else []
    {
      LogAfterBroadcast(h, s.run.m, c);
    }
  }

  lemma LooksAfterBroadcast(s: State, s': State, h: Hub)
    requires s.run.CastLoop? && s.run.todo == {} && RunCastBranch(s, s')
    requires h.members == s.clients && h.closed == s.closed && forall c :: LogOf(h.log, c) == LogOf(s.log, c)
    ensures Looks(s', h)
  {}

  lemma BroadcastCatchesUp(actions: seq<Action>, s: State, s': State) returns (more: seq<Action>)
    requires Play(actions).Some? && Looks(s, Play(actions).value)
    requires s.run.CastLoop? && s.run.todo == {} && RunCastBranch(s, s')
    ensures actions <= more && Play(more).Some? && Looks(s', Play(more).value)
    ensures Broadcasts(more) == Broadcasts(actions) + [s.run.m]
  {
    var next := ActBroadcast(actions, s.run.m);
    LagsAfterBroadcast(s, Play(actions).value);
    more := CatchUp(next, s.log, s.clients);
    LooksAfterBroadcast(s, s', Play(more).value);
  }

  lemma BroadcastEnds(actions: seq<Action>, s: State, s': State) returns (more: seq<Action>)
    requires Explains(actions, s) && CastInv(s) && s.run.CastLoop? && s.run.todo == {} && RunCastBranch(s, s')
    ensures actions <= more && Explains(more, s')
  {
    more := BroadcastCatchesUp(actions, s, s');
    EndAnnounces(s, s');
  }

  // ---- every step, every run ----

  lemma SenderRefines(actions: seq<Action>, s: State, s': State, g: nat) returns (more: seq<Action>)
    requires Safe(s) && Explains(actions, s) && SenderStep(s, s', g) && Announced(s') == Announced(s)
    ensures actions <= more && Explains(more, s')
  {
    SenderFrame(s, s', g);
    SendersAreSafe(s);
    var h := Play(actions).value;
    if !s.senders[g].Sending? {
      SenderUnseen(s, s', g);
      SameViewLooksSame(s, s', h);
      more := actions;
    } else {
      var c, m := s.senders[g].c, s.senders[g].m;
      if c in Served(s) {
        EarlySend(s, s', h, c, m);
        more := actions;
      } else {
        DirectSend(s, s', h, c, m);
        more := Act(actions, Direct(c, m), s');
      }
    }
  }

  lemma BranchUnseen(s: State, s': State)
    requires Safe(s) && !s'.panicked && RunInBranch(s, s')
    requires !s.run.RegHeld? && !s.run.DelHeld? && !s.run.DoneWait? && !s.run.CastSend?
    requires s.run.CastLoop? ==> s.run.todo != {}
    ensures SameView(s, s')
  {
    if RunRegisterBranch(s, s') {
      RegisterUnseen(s, s');
    } else if RunInfoBranch(s, s') {
      InfoUnseen(s, s');
    } else if RunUnregisterBranch(s, s') {
      UnregisterUnseen(s, s');
    } else if RunDeleteBranch(s, s') {
      DeleteUnseen(s, s');
    } else if RunCastBranch(s, s') {
      CastUnseen(s, s');
    } else {
      if s.run.DoneDelete? {
        assert s.run.c in s.clients * s.closed;
      }
      DoneUnseen(s, s');
    }
  }

  lemma BranchRefines(actions: seq<Action>, s: State, s': State) returns (more: seq<Action>)
    requires Safe(s) && CastInv(s) && !s'.panicked && Explains(actions, s) && RunInBranch(s, s')
    requires !(s.run.CastLoop? && s.run.todo == {}) ==> Announced(s') == Announced(s)
    ensures actions <= more && Explains(more, s')
  {
    var h := Play(actions).value;
    if s.run.RegHeld? {
      InsertAdmits(s, s', h);
      more := Act(actions, Admit(s.run.c), s');
    } else if s.run.DelHeld? {
      DeletionRemoves(s, s', h);
      more := Act(actions, RemoveAndClose(s.run.c), s');
    } else if s.run.DoneWait? {
      WriteLockShutsDown(s, s', h);
      more := Act(actions, Shutdown, s');
    } else if s.run.CastSend? {
      BroadcastReachesOne(s, s', h);
      more := actions;
    } else if s.run.CastLoop? && s.run.todo == {} {
      more := BroadcastEnds(actions, s, s');
    } else {
      BranchUnseen(s, s');
      SameViewLooksSame(s, s', h);
      more := actions;
    }
  }

  lemma StepRefines(actions: seq<Action>, s: State, s': State) returns (more: seq<Action>)
    requires Inv(s) && CastInv(s) && Explains(actions, s) && Step(s, s')
    ensures actions <= more && Explains(more, s')
  {
    StepKeepsInv(s, s');
    StepKeepsCast(s, s');
    if RunInBranch(s, s') {
      more := BranchRefines(actions, s, s');
    } else if g :| SenderStep(s, s', g) {
      more := SenderRefines(actions, s, s', g);
    } else {
      if RunStep(s, s') {
        SelectUnseen(s, s');
      } else {
        OutsideUnseen(s, s');
      }
      SameViewLooksSame(s, s', Play(actions).value);
      more := actions;
    }
  }

  lemma LastStepRefines(front: seq<State>, s: State, s': State, before: seq<Action>) returns (actions: seq<Action>)
    requires IsRun(front) && s == front[|front| - 1] && Step(s, s') && Explains(before, s)
    ensures before <= actions && Explains(actions, s')
  {
    RunKeepsMessages(front);
    actions := StepRefines(before, s, s');
  }

  /** The first `n` actions bring the atomic hub to where it looks like `s`. */
  ghost predicate ExplainsAt(actions: seq<Action>, n: nat, s: State) {
    n <= |actions| && Explains(actions[..n], s)
  }

  /** Each state of the run looks like the atomic hub after the actions up to its cut, and the cuts never go back. */
  ghost predicate Follows(actions: seq<Action>, cuts: seq<nat>, run: seq<State>) {
    && |cuts| == |run|
    && (forall i :: 0 <= i < |run| ==> ExplainsAt(actions, cuts[i], run[i]))
    && (forall i, j :: 0 <= i <= j < |cuts| ==> cuts[i] <= cuts[j])
  }

  lemma ExplainsLonger(before: seq<Action>, actions: seq<Action>, n: nat, s: State)
    requires ExplainsAt(before, n, s) && before <= actions
    ensures ExplainsAt(actions, n, s)
  {
    assert actions[..n] == before[..n];
  }

  lemma ExplainsAll(actions: seq<Action>, s: State)
    requires Explains(actions, s)
    ensures ExplainsAt(actions, |actions|, s)
  {
    assert actions[..|actions|] == actions;
  }

  lemma FollowsSnoc(before: seq<Action>, cuts: seq<nat>, run: seq<State>, actions: seq<Action>, s: State)
    requires Follows(before, cuts, run) && before <= actions && ExplainsAt(actions, |actions|, s)
    ensures Follows(actions, cuts + [|actions|], run + [s])
  {
    forall i | 0 <= i < |run + [s]| ensures ExplainsAt(actions, (cuts + [|actions|])[i], (run + [s])[i]) {
      if i < |run| {
        assert ExplainsAt(before, cuts[i], run[i]);
        ExplainsLonger(before, actions, cuts[i], run[i]);
      }
    }
    forall i | 0 <= i < |cuts| ensures cuts[i] <= |actions| {
      assert ExplainsAt(before, cuts[i], run[i]);
    }
  }

  /** One history of atomic actions for a whole run, with the point in it that each state of the run has reached. */
  lemma {:induction false} RunRefines(run: seq<State>) returns (actions: seq<Action>, cuts: seq<nat>)
    requires IsRun(run)
    ensures Explains(actions, run[|run| - 1]) && Follows(actions, cuts, run)
    decreases |run|
  {
    if |run| == 1 {
      actions, cuts := [], [0];
      ExplainsAll(actions, run[0]);
    } else {
      var front, s, s' := SplitRun(run);
      var before, cutsBefore := RunRefines(front);
      actions := LastStepRefines(front, s, s', before);
      ExplainsAll(actions, s');
      cuts := cutsBefore + [|actions|];
      FollowsSnoc(before, cutsBefore, front, actions, s');
    }
  }

  /** Outside broadcasts and removals a reachable hub is exactly an atomic one. */
  lemma RefinesAtomicHub(s: State) returns (actions: seq<Action>)
    requires Reachable(s)
    ensures Explains(actions, s)
    ensures s.run.Select? || s.run.RunReturned? ==>
      && Broadcasts(actions) == Infos(s.taken)
      && Play(actions).value.members == s.clients && Play(actions).value.closed == s.closed
      && forall c :: LogOf(Play(actions).value.log, c) == LogOf(s.log, c)
  {
    var run :| IsRun(run) && run[|run| - 1] == s;
    var cuts;
    actions, cuts := RunRefines(run);
  }
}

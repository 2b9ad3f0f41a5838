/** What the messages say, and where they come from. */
module HubMessages {
  import opened AtomicHub
  import opened HubInvariant
  import opened HubMachine
  import opened HubTheorems

  predicate InCast(pc: RunPc) {
    pc.CastWant? || pc.CastLoop? || pc.CastSend?
  }

  /** A broadcast under way is of the number taken last. */
  predicate CastInv(s: State) {
    InCast(s.run) ==> s.taken != [] && s.run.m == Info(s.taken[|s.taken| - 1])
  }

  /** The numbers whose broadcast is over. */
  function Announced(s: State): seq<nat> {
    if InCast(s.run) && s.taken != [] then s.taken[..|s.taken| - 1] else s.taken
  }

  function Infos(ns: seq<nat>): seq<Message> {
    seq(|ns|, i requires 0 <= i < |ns| => Info(ns[i]))
  }

  lemma InfosSnoc(ns: seq<nat>)
    requires ns != []
    ensures Infos(ns) == Infos(ns[..|ns| - 1]) + [Info(ns[|ns| - 1])]
  {}

  lemma TakingAnnouncement(s: State, s': State, n: nat)
    requires RunBroadcasts(s, s', n)
    ensures CastInv(s') && Announced(s') == Announced(s)
  {
    assert (s.taken + [n])[..|s.taken|] == s.taken;
  }

  lemma OtherSelects(s: State, s': State)
    requires RunRegisters(s, s') || RunUnregisters(s, s') || RunShutsDown(s, s')
    ensures CastInv(s') && Announced(s') == Announced(s)
  {}

  lemma SelectKeepsCast(s: State, s': State)
    requires RunSelects(s, s')
    ensures CastInv(s') && Announced(s') == Announced(s)
  {
    if n :| RunBroadcasts(s, s', n) {
      TakingAnnouncement(s, s', n);
    } else {
      OtherSelects(s, s');
    }
  }

  lemma CastBranchKeepsCast(s: State, s': State)
    requires CastInv(s) && RunCastBranch(s, s')
    ensures CastInv(s') && s'.taken == s.taken && s'.senders == s.senders && InCast(s.run)
    ensures InCast(s'.run) <==> !(s.run.CastLoop? && s.run.todo == {})
  {}

  /** The end of a broadcast: one more number has been announced. */
  lemma EndAnnounces(s: State, s': State)
    requires CastInv(s) && s.run.CastLoop? && s.run.todo == {} && RunCastBranch(s, s')
    ensures Infos(Announced(s')) == Infos(Announced(s)) + [s.run.m]
  {
    InfosSnoc(s.taken);
  }

  /** A branch that broadcasts nothing. */
  predicate Silent(s: State, s': State) {
    s'.taken == s.taken && s'.senders == s.senders && s'.log == s.log && !InCast(s.run) && !InCast(s'.run)
  }

  lemma RegisterBranchSilent(s: State, s': State)
    requires RunRegisterBranch(s, s')
    ensures Silent(s, s')
  {}

  lemma InfoBranchSilent(s: State, s': State)
    requires RunInfoBranch(s, s')
    ensures Silent(s, s')
  {}

  lemma UnregisterBranchSilent(s: State, s': State)
    requires RunUnregisterBranch(s, s')
    ensures Silent(s, s')
  {}

  lemma DeleteBranchSilent(s: State, s': State)
    requires RunDeleteBranch(s, s')
    ensures Silent(s, s')
  {}

  lemma DoneBranchSilent(s: State, s': State)
    requires RunDoneBranch(s, s')
    ensures Silent(s, s')
  {}

  lemma OtherBranchesSilent(s: State, s': State)
    requires RunInBranch(s, s') && !RunCastBranch(s, s')
    ensures Silent(s, s')
  {
    if RunRegisterBranch(s, s') {
      RegisterBranchSilent(s, s');
    } else if RunInfoBranch(s, s') {
      InfoBranchSilent(s, s');
    } else if RunUnregisterBranch(s, s') {
      UnregisterBranchSilent(s, s');
    } else if RunDeleteBranch(s, s') {
      DeleteBranchSilent(s, s');
    } else {
      DoneBranchSilent(s, s');
    }
  }

  /** Except at the end of a broadcast, no step changes what has been announced. */
  lemma StepKeepsCast(s: State, s': State)
    requires Safe(s) && CastInv(s) && Step(s, s')
    ensures CastInv(s')
    ensures !(RunInBranch(s, s') && s.run.CastLoop? && s.run.todo == {}) ==> Announced(s') == Announced(s)
  {
    if RunCastBranch(s, s') {
      CastBranchKeepsCast(s, s');
    } else if RunInBranch(s, s') {
      OtherBranchesSilent(s, s');
    } else if RunStep(s, s') {
      SelectKeepsCast(s, s');
    } else if g :| SenderStep(s, s', g) {
      SenderFrame(s, s', g);
    } else {
      OutsideFrame(s, s');
    }
  }

  // ---- where the messages in a client's log come from ----

  /** At this point of the run a goroutine was started to send the message to the client. */
  predicate StartsAt(run: seq<State>, i: nat, g: nat, c: Client, m: Message) {
    i < |run| - 1 && SenderStarts(run[i], run[i + 1], g, c, m)
  }

  ghost predicate Started(run: seq<State>, c: Client, m: Message) {
    exists i, g :: StartsAt(run, i, g, c, m)
  }

  /** The goroutine is still going to send, or just about to. */
  predicate Carries(p: SenderPc, c: Client, m: Message) {
    !p.Releasing? && p.c == c && p.m == m
  }

  predicate CarriedBy(s: State, g: nat, c: Client, m: Message) {
    g in s.senders && Carries(s.senders[g], c, m)
  }

  ghost predicate CarriersStarted(run: seq<State>, s: State) {
    forall g, c, m | CarriedBy(s, g, c, m) :: m.Signal? && Started(run, c, m)
  }

  ghost predicate LogAccounted(run: seq<State>, s: State) {
    forall c, m | m in LogOf(s.log, c) :: if m.Info? then m.connections in s.taken else Started(run, c, m)
  }

  lemma StartedLonger(run: seq<State>, s: State, c: Client, m: Message)
    requires Started(run, c, m)
    ensures Started(run + [s], c, m)
  {
    var i, g :| StartsAt(run, i, g, c, m);
    assert StartsAt(run + [s], i, g, c, m);
  }

  lemma StartedNow(run: seq<State>, s: State, g: nat, c: Client, m: Message)
    requires run != [] && SenderStarts(run[|run| - 1], s, g, c, m)
    ensures m.Signal? && Started(run + [s], c, m)
  {
    assert StartsAt(run + [s], |run| - 1, g, c, m);
  }

  /** What a step may add to a client's log. */
  ghost predicate Delivered(s: State, s': State, c: Client, m: Message) {
    || (InCast(s.run) && m == s.run.m)
    || exists g :: CarriedBy(s, g, c, m)
  }

  lemma CastDelivers(s: State, s': State, c: Client, m: Message)
    requires RunCastBranch(s, s') && m in LogOf(s'.log, c)
    ensures m in LogOf(s.log, c) || Delivered(s, s', c, m)
  {
    if s.run.CastSend? && s'.log != s.log {
      LogAfterAppend(s.log, s.run.c, s.run.m, c);
    }
  }

  lemma SenderDelivers(s: State, s': State, g: nat, c: Client, m: Message)
    requires SenderStep(s, s', g) && m in LogOf(s'.log, c)
    ensures m in LogOf(s.log, c) || Delivered(s, s', c, m)
  {
    if s.senders[g].Sending? && s'.log != s.log {
      LogAfterAppend(s.log, s.senders[g].c, s.senders[g].m, c);
      assert CarriedBy(s, g, s.senders[g].c, s.senders[g].m);
    }
  }

  lemma SelectLeavesLog(s: State, s': State)
    requires RunSelects(s, s')
    ensures s'.log == s.log && s.taken <= s'.taken && s'.senders == s.senders
  {}

  lemma StepDelivers(s: State, s': State, c: Client, m: Message)
    requires Step(s, s') && m in LogOf(s'.log, c)
    ensures m in LogOf(s.log, c) || Delivered(s, s', c, m)
  {
    if RunCastBranch(s, s') {
      CastDelivers(s, s', c, m);
    } else if RunInBranch(s, s') {
      OtherBranchesSilent(s, s');
    } else if RunStep(s, s') {
      SelectLeavesLog(s, s');
    } else if g :| SenderStep(s, s', g) {
      SenderDelivers(s, s', g, c, m);
    } else {
      OutsideFrame(s, s');
    }
  }

  lemma BranchLeavesSenders(s: State, s': State)
    requires CastInv(s) && RunInBranch(s, s')
    ensures s'.senders == s.senders && s'.taken == s.taken
  {
    if RunCastBranch(s, s') {
      CastBranchKeepsCast(s, s');
    } else {
      OtherBranchesSilent(s, s');
    }
  }

  /** A goroutine that carries a message carried it before, or has just been started with it. */
  lemma StepCarries(s: State, s': State, g: nat, c: Client, m: Message)
    requires Safe(s) && CastInv(s) && Step(s, s') && CarriedBy(s', g, c, m)
    ensures CarriedBy(s, g, c, m) || SenderStarts(s, s', g, c, m)
  {
    if RunInBranch(s, s') {
      BranchLeavesSenders(s, s');
    } else if RunStep(s, s') {
      SelectLeavesLog(s, s');
    } else if h :| SenderStep(s, s', h) {
      SenderCarries(s, s', h, g, c, m);
    } else {
      OutsideCarries(s, s', g, c, m);
    }
  }

  lemma SenderCarries(s: State, s': State, h: nat, g: nat, c: Client, m: Message)
    requires SenderStep(s, s', h) && CarriedBy(s', g, c, m)
    ensures CarriedBy(s, g, c, m)
  {}

  lemma OutsideCarries(s: State, s': State, g: nat, c: Client, m: Message)
    requires OutsideStep(s, s') && CarriedBy(s', g, c, m)
    ensures CarriedBy(s, g, c, m) || SenderStarts(s, s', g, c, m)
  {}

  lemma TakenGrows(s: State, s': State)
    requires Safe(s) && CastInv(s) && Step(s, s')
    ensures s.taken <= s'.taken
  {
    if RunInBranch(s, s') {
      BranchLeavesSenders(s, s');
    } else if RunStep(s, s') {
      SelectLeavesLog(s, s');
    } else if g :| SenderStep(s, s', g) {
      SenderFrame(s, s', g);
    } else {
      OutsideFrame(s, s');
    }
  }

  lemma StepKeepsCarriers(run: seq<State>, s: State, s': State)
    requires run != [] && s == run[|run| - 1] && Safe(s) && CastInv(s) && CarriersStarted(run, s) && Step(s, s')
    ensures CarriersStarted(run + [s'], s')
  {
    forall g, c, m | CarriedBy(s', g, c, m) ensures m.Signal? && Started(run + [s'], c, m) {
      StepCarries(s, s', g, c, m);
      if CarriedBy(s, g, c, m) {
        StartedLonger(run, s', c, m);
      } else {
        StartedNow(run, s', g, c, m);
      }
    }
  }

  lemma DeliveredIsAccounted(run: seq<State>, s: State, s': State, c: Client, m: Message)
    requires CastInv(s) && CarriersStarted(run, s) && Delivered(s, s', c, m)
    ensures if m.Info? then m.connections in s.taken else Started(run, c, m)
  {
    if InCast(s.run) && m == s.run.m {
      var last := s.taken[|s.taken| - 1];
      assert m == Info(last) && m.connections == last && last in s.taken;
    }
  }

  lemma StepKeepsLog(run: seq<State>, s: State, s': State)
    requires Safe(s) && CastInv(s) && CarriersStarted(run, s) && LogAccounted(run, s) && Step(s, s')
    ensures LogAccounted(run + [s'], s')
  {
    TakenGrows(s, s');
    forall c, m | m in LogOf(s'.log, c)
      ensures if m.Info? then m.connections in s'.taken else Started(run + [s'], c, m)
    {
      StepDelivers(s, s', c, m);
      if m !in LogOf(s.log, c) {
        DeliveredIsAccounted(run, s, s', c, m);
      }
      if !m.Info? {
        StartedLonger(run, s', c, m);
      }
    }
  }

  ghost predicate MessagesInv(run: seq<State>, s: State) {
    Inv(s) && CastInv(s) && CarriersStarted(run, s) && LogAccounted(run, s)
  }

  lemma StepKeepsMessages(run: seq<State>, s: State, s': State)
    requires run != [] && s == run[|run| - 1] && MessagesInv(run, s) && Step(s, s')
    ensures MessagesInv(run + [s'], s')
  {
    StepKeepsInv(s, s');
    StepKeepsCast(s, s');
    StepKeepsCarriers(run, s, s');
    StepKeepsLog(run, s, s');
  }

  lemma InitMessages()
    ensures MessagesInv([INITIAL], INITIAL)
  {
    InitInv();
  }

  lemma SplitRun(run: seq<State>) returns (front: seq<State>, s: State, s': State)
    requires IsRun(run) && |run| > 1
    ensures run == front + [s'] && IsRun(front) && front[|front| - 1] == s && Step(s, s')
    ensures |front| == |run| - 1
  {
    front, s, s' := run[..|run| - 1], run[|run| - 2], run[|run| - 1];
    assert Step(run[|run| - 2], run[|run| - 2 + 1]);
  }

  lemma {:induction false} RunKeepsMessages(run: seq<State>)
    requires IsRun(run)
    ensures MessagesInv(run, run[|run| - 1])
    decreases |run|
  {
    if |run| == 1 {
      assert run == [INITIAL];
      InitMessages();
    } else {
      var front, s, s' := SplitRun(run);
      RunKeepsMessages(front);
      StepKeepsMessages(front, s, s');
    }
  }

  /** Inside its broadcast branch Run broadcasts the number it took last. */
  lemma BroadcastsTheCountTaken(s: State)
    requires Reachable(s) && InCast(s.run)
    ensures s.taken != [] && s.run.m == Info(s.taken[|s.taken| - 1])
  {
    var run :| IsRun(run) && run[|run| - 1] == s;
    RunKeepsMessages(run);
  }

  /** Every count a client was told is the number of clients right after some admission or removal, and every
      other message was meant for it by a goroutine of its own. */
  lemma MessagesAreGenuine(run: seq<State>, c: Client, m: Message)
    requires IsRun(run) && m in LogOf(run[|run| - 1].log, c)
    ensures m.Info? ==> m.connections in run[|run| - 1].taken && m.connections in Sizes(run[|run| - 1].events)
    ensures m.Signal? ==> exists i, g :: StartsAt(run, i, g, c, m)
  {
    RunKeepsMessages(run);
    LoggedIsGenuine(run, run[|run| - 1], c, m);
  }

  lemma LoggedIsGenuine(run: seq<State>, s: State, c: Client, m: Message)
    requires LogAccounted(run, s) && Informed(s) && m in LogOf(s.log, c)
    ensures m.Info? ==> m.connections in s.taken && m.connections in Sizes(s.events)
    ensures m.Signal? ==> Started(run, c, m)
  {
    if m.Info? {
      TakenIsCounted(s, m.connections);
    }
  }

  lemma TakenIsCounted(s: State, n: nat)
    requires Informed(s) && n in s.taken
    ensures n in Sizes(s.events)
  {
    assert n in multiset(s.taken);
  }
}

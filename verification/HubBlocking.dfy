/** A broadcast meets a write loop that has exited. */
module HubBlocking {
  import opened AtomicHub
  import opened HubInvariant
  import opened HubMachine
  import opened HubPaths
  import opened HubProgress

  lemma MeetsExit(s: State, c: Client, n: nat) returns (path: seq<State>)
    requires !s.panicked && CanRead(s.lock) && s.run.Select? && n in s.infos && c in s.clients && c in s.listening
    ensures IsPath(path) && |path| == 5 && path[0] == s && RunBroadcasts(path[0], path[1], n)
    ensures path[3].run.CastSend? && path[3].run.c == c && WriteLoopExits(path[3], path[4], c)
    ensures path[4].run == path[3].run && path[4].clients == s.clients && c !in path[4].listening
  {
    var s1 := s.(run := CastWant(Info(n)), infos := s.infos - multiset{n}, taken := s.taken + [n]);
    var s2 := s1.(run := CastLoop(Info(n), s.clients), lock := ReadLocked(s.lock, RunHolder));
    var s3 := s2.(run := CastSend(Info(n), c, s.clients - {c}));
    var s4 := s3.(listening := s.listening - {c});
    assert RunBroadcasts(s, s1, n);
    assert RunCastBranch(s1, s2);
    assert RunCastBranch(s2, s3);
    assert WriteLoopExits(s3, s4, c);
    path := [s, s1, s2, s3, s4];
  }

  lemma SendingIsBlocked(s: State, c: Client)
    requires s.run.CastSend? && s.run.c == c && c !in s.listening
    ensures !AtRest(s) && Blocked(s)
  {
    assert c in Needed(s);
  }

  /** From any select with an announcement to send and a member that receives, the member's write loop can exit
      just before the send: Run is then in its branch for good. */
  lemma BroadcastCanBlock(s: State, c: Client, n: nat) returns (path: seq<State>)
    requires Reachable(s) && s.run.Select? && n in s.infos && c in s.clients && c in s.listening
    ensures IsPath(path) && |path| == 5 && path[0] == s && RunBroadcasts(path[0], path[1], n)
    ensures path[3].run.CastSend? && path[3].run.c == c && WriteLoopExits(path[3], path[4], c)
    ensures !AtRest(path[4]) && Blocked(path[4])
  {
    ReachableInv(s);
    path := MeetsExit(s, c, n);
    SendingIsBlocked(path[4], c);
  }

  lemma FirstViewerRegisters(c: Client) returns (run: seq<State>)
    ensures IsRun(run) && |run| > 2 && RegisterSent(run[1], run[2], c)
    ensures var s := run[|run| - 1];
      s.run.Select? && !s.panicked && CanRead(s.lock) && s.clients == {c} && s.listening == {c} && 1 in s.infos
  {
    var start := Connects(c);
    var registered := RegisterNext(start[2], c);
    run := PathJoin(start, registered);
    assert |registered[|registered| - 1].clients| == 1;
  }

  /** It happens to the first viewer, whose own registration is announced to it. */
  lemma FirstAnnouncementBlocks(c: Client) returns (run: seq<State>)
    ensures IsRun(run) && |run| > 1 && WriteLoopExits(run[|run| - 2], run[|run| - 1], c)
    ensures var s := run[|run| - 1]; s.clients == {c} && !AtRest(s) && Blocked(s)
  {
    var before := FirstViewerRegisters(c);
    var blocked := MeetsExit(before[|before| - 1], c, 1);
    SendingIsBlocked(blocked[4], c);
    run := PathJoin(before, blocked);
    assert run[|run| - 2] == blocked[3];
  }
}

/** Paths of the hub: putting them together, and a client's way into the map. */
module HubPaths {
  import opened AtomicHub
  import opened HubMachine

  predicate TakesRegister(s: State, s': State, c: Client) {
    RunRegisters(s, s') && s.register[0] == c
  }

  lemma PathTail(path: seq<State>)
    requires IsPath(path) && |path| > 1
    ensures IsPath(path[1..]) && path[1..][|path| - 2] == path[|path| - 1]
  {
    forall i | 0 <= i < |path| - 2 ensures Step(path[1..][i], path[1..][i + 1]) {
      assert Step(path[i + 1], path[i + 1 + 1]);
    }
  }

  /** A client connects and sends its Register. */
  lemma Connects(c: Client) returns (path: seq<State>)
    ensures IsPath(path) && |path| == 3 && path[0] == INITIAL && RegisterSent(path[1], path[2], c)
    ensures path[2] == INITIAL.(listening := {c}, sent := {c}, register := [c])
  {
    var s1 := INITIAL.(connecting := {c}, listening := {c});
    var s2 := s1.(connecting := {}, sent := {c}, register := [c]);
    assert ClientConnects(INITIAL, s1, c);
    assert RegisterSent(s1, s2, c) by { assert {c} - {c} == {}; }
    path := [INITIAL, s1, s2];
  }

  lemma PathJoin(a: seq<State>, b: seq<State>) returns (path: seq<State>)
    requires IsPath(a) && IsPath(b) && a[|a| - 1] == b[0]
    ensures path == a + b[1..] && IsPath(path) && path[|path| - 1] == b[|b| - 1]
    ensures forall i :: 0 <= i < |a| ==> path[i] == a[i]
    ensures forall i :: |a| - 1 <= i < |path| ==> path[i] == b[i - |a| + 1]
  {
    path := a + b[1..];
    forall i | 0 <= i < |path| - 1 ensures Step(path[i], path[i + 1]) {
      if i < |a| - 1 {
        assert path[i] == a[i] && path[i + 1] == a[i + 1];
      } else {
        var k := i - |a| + 1;
        assert path[i] == b[k] && path[i + 1] == b[k + 1];
      }
    }
  }

  lemma InsertsNext(s: State, c: Client) returns (path: seq<State>)
    requires !s.panicked && s.run.Select? && s.lock == Lock({}, false, false) && s.register == [c]
    ensures IsPath(path) && |path| > 1 && path[0] == s && TakesRegister(path[0], path[1], c)
    ensures var t := path[|path| - 1];
      && t == s.(run := InfoWant, register := [], clients := s.clients + {c}, consumed := s.consumed + {c},
                 events := s.events + [Admitted(c)])
  {
    var s1 := s.(run := RegWant(c), register := [], consumed := s.consumed + {c});
    var s2 := s1.(run := RegWait(c), lock := Lock({}, false, true));
    var s3 := s2.(run := RegHeld(c), lock := Lock({}, true, false));
    var s4 := s3.(run := RegUnlock(c), clients := s.clients + {c}, events := s.events + [Admitted(c)]);
    var s5 := s4.(run := InfoWant, lock := Lock({}, false, false));
    assert RunRegisters(s, s1);
    assert RunRegisterBranch(s1, s2) && RunRegisterBranch(s2, s3);
    assert RunRegisterBranch(s3, s4) && RunRegisterBranch(s4, s5);
    path := [s, s1, s2, s3, s4, s5];
  }

  lemma AnnouncesNext(s: State) returns (path: seq<State>)
    requires !s.panicked && s.run.InfoWant? && s.lock == Lock({}, false, false)
    ensures IsPath(path) && path[0] == s
    ensures path[|path| - 1] == s.(run := Select, infos := s.infos + multiset{|s.clients|})
  {
    var s1 := s.(run := InfoHeld, lock := Lock({RunHolder}, false, false));
    var s2 := s1.(run := InfoRelease(|s.clients|));
    var s3 := s2.(run := InfoSpawn(|s.clients|), lock := ReadUnlocked(s2.lock, RunHolder));
    var s4 := s3.(run := Select, infos := s.infos + multiset{|s.clients|});
    assert RunInfoBranch(s, s1) && RunInfoBranch(s1, s2);
    assert RunInfoBranch(s2, s3) && RunInfoBranch(s3, s4);
    assert s3.lock == s.lock;
    path := [s, s1, s2, s3, s4];
  }

  /** Then it takes the Register. */
  lemma RegisterNext(s: State, c: Client) returns (path: seq<State>)
    requires !s.panicked && s.run.Select? && s.lock == Lock({}, false, false) && s.register == [c]
    ensures IsPath(path) && |path| > 1 && path[0] == s && TakesRegister(path[0], path[1], c)
    ensures var t := path[|path| - 1];
      && t.run.Select? && t.clients == s.clients + {c} && t.closed == s.closed && t.consumed == s.consumed + {c}
      && t.register == [] && t.unregister == s.unregister && t.lock == s.lock && t.panicked == s.panicked
      && t.listening == s.listening && t.sent == s.sent && t.infos == s.infos + multiset{|t.clients|}
  {
    var inserted := InsertsNext(s, c);
    var announced := AnnouncesNext(inserted[|inserted| - 1]);
    path := PathJoin(inserted, announced);
  }
}

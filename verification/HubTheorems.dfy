/** Safety of the hub in every reachable state. */
module HubTheorems {
  import opened AtomicHub
  import opened HubInvariant
  import opened HubMachine

  /** No interleaving sends on a closed channel or closes one twice: whoever is at a send holds a
      read lock and its target is registered and open, and a closed client is out of the map unless Run
      holds the write lock. */
  lemma NeverPanics(s: State)
    requires Reachable(s)
    ensures !s.panicked
    ensures forall g | g in s.senders && s.senders[g].Sending? ::
      SenderHolder(g) in s.lock.readers && s.senders[g].c in s.clients && s.senders[g].c !in s.closed
    ensures s.run.CastSend? ==>
      RunHolder in s.lock.readers && s.run.c in s.clients && s.run.c !in s.closed
    ensures forall c <- s.closed :: c !in s.clients || s.lock.writer
  {
    ReachableInv(s);
    SendersAreSafe(s);
    ClosedIsOut(s);
  }

  lemma SendersAreSafe(s: State)
    requires Safe(s)
    ensures forall g | g in s.senders && s.senders[g].Sending? ::
      SenderHolder(g) in s.lock.readers && s.senders[g].c in s.clients && s.senders[g].c !in s.closed
  {
    forall g | g in s.senders && s.senders[g].Sending?
      ensures SenderHolder(g) in s.lock.readers && s.senders[g].c in s.clients && s.senders[g].c !in s.closed
    {
      assert SenderHolder(g) in s.lock.readers;
      assert !s.lock.writer && Lingering(s.run) == {};
      assert s.senders[g].c !in s.clients * s.closed;
    }
  }

  lemma ClosedIsOut(s: State)
    requires Safe(s)
    ensures forall c <- s.closed :: c !in s.clients || s.lock.writer
    ensures s.run.CastSend? ==>
      RunHolder in s.lock.readers && s.run.c in s.clients && s.run.c !in s.closed
  {
    forall c <- s.closed ensures c !in s.clients || s.lock.writer {
      assert c in s.clients ==> c in s.clients * s.closed;
    }
    if s.run.CastSend? {
      assert s.run.c !in s.clients * s.closed;
    }
  }

  /** Every client ever received from Register is in exactly one place: in the map, closed (once, since
      a second close panics), or the single one Run is moving; however many duplicate
      Unregisters arrive. When Run has returned, all of them are closed. */
  lemma ClientsConserved(s: State)
    requires Reachable(s)
    ensures s.consumed == s.clients + s.closed + InFlight(s.run)
    ensures |InFlight(s.run)| <= 1 && InFlight(s.run) !! s.clients + s.closed
    ensures !s.run.DoneDelete? ==> s.clients !! s.closed
    ensures s.run.RunReturned? ==> s.clients == {} && s.closed == s.consumed
  {
    ReachableInv(s);
  }

  /** The announcements on their way and those delivered are exactly the client counts right
      after each admission and each effective removal, but for the one Run is about to spawn. */
  lemma AnnouncementsAccounted(s: State)
    requires Reachable(s)
    ensures s.infos + multiset(s.taken) + Owed(s) == Sizes(s.events)
    ensures |s.infos| + |s.taken| + |Owed(s)| == |s.events|
    ensures !ShuttingDown(s.run) ==> s.clients == ClientsAfter(s.events)
  {
    ReachableInv(s);
    SizesCount(s.events);
    assert |s.infos + multiset(s.taken) + Owed(s)| == |s.infos| + |s.taken| + |Owed(s)|;
  }

  lemma {:induction false} SizesCount(events: seq<Event>)
    ensures |Sizes(events)| == |events|
  {
    if events != [] {
      SizesCount(events[..|events| - 1]);
    }
  }

  predicate RequestsLock(pc: RunPc) {
    || pc.RegWant? || pc.RegWait? || pc.InfoWant? || pc.UnregWant? || pc.DelWant? || pc.DelWait?
    || pc.CastWant? || pc.DoneWant? || pc.DoneWait?
  }

  /** Run never asks for a lock while it holds one, and only Run ever writes. */
  lemma NeverRequestsWhileHolding(s: State)
    requires Reachable(s) && RequestsLock(s.run)
    ensures RunHolder !in s.lock.readers && !s.lock.writer
  {
    ReachableInv(s);
  }

  // ---- what the other goroutines leave alone ----

  predicate SameRun(s: State, s': State) {
    && s'.run == s.run && s'.clients == s.clients && s'.consumed == s.consumed
    && s'.lock.writer == s.lock.writer && s'.lock.pending == s.lock.pending
    && s'.infos == s.infos && s'.taken == s.taken && s'.events == s.events
  }

  lemma SenderFrame(s: State, s': State, g: nat)
    requires Safe(s) && SenderStep(s, s', g)
    ensures SameRun(s, s') && s'.closed == s.closed && s'.listening == s.listening
    ensures s'.register == s.register && s'.unregister == s.unregister && s'.sent == s.sent
    ensures s'.log != s.log ==> s.clients != {}
  {
    SendersAreSafe(s);
  }

  lemma OutsideFrame(s: State, s': State)
    requires OutsideStep(s, s')
    ensures SameRun(s, s') && s'.closed == s.closed && s'.lock == s.lock && s'.log == s.log
    ensures s.register <= s'.register && s.unregister <= s'.unregister
  {
    OutsideIsOutside(s, s');
  }

  /** Nobody starts listening again, and goroutines in the middle of a send are left alone. */
  lemma OutsideKeepsSenders(s: State, s': State)
    requires OutsideStep(s, s')
    ensures forall c <- s.sent :: c in s'.listening ==> c in s.listening
    ensures forall g <- s.senders :: g in s'.senders && s'.senders[g] == s.senders[g]
    ensures forall g <- s'.senders :: g in s.senders || s'.senders[g].Wanting?
  {
    if g, c, m :| SenderStarts(s, s', g, c, m) {
      StartAddsSender(s, s', g, c, m);
    } else {
      assert s'.senders == s.senders;
    }
  }

  lemma StartAddsSender(s: State, s': State, g: nat, c: Client, m: Message)
    requires SenderStarts(s, s', g, c, m)
    ensures g !in s.senders && s'.senders == s.senders[g := Wanting(c, m)] && s'.listening == s.listening
  {}

  /** Membership changes only under the write lock, with nobody reading. */
  lemma MembershipChangesUnderLock(s: State, s': State)
    requires Reachable(s) && Step(s, s') && s'.clients != s.clients
    ensures s.lock.writer && s.lock.readers == {} && RunInBranch(s, s')
  {
    ReachableInv(s);
    OnlyRunChangesMembership(s, s');
    SelectKeepsMembership(s, s');
    BranchMembership(s, s');
  }

  lemma OnlyRunChangesMembership(s: State, s': State)
    requires Safe(s) && Step(s, s') && s'.clients != s.clients
    ensures RunStep(s, s')
  {
    if g :| SenderStep(s, s', g) {
      SenderFrame(s, s', g);
    } else if OutsideStep(s, s') {
      OutsideFrame(s, s');
    }
  }

  lemma SelectKeepsMembership(s: State, s': State)
    requires RunStep(s, s') && s'.clients != s.clients
    ensures RunInBranch(s, s')
  {}

  lemma BranchMembership(s: State, s': State)
    requires RunInBranch(s, s') && s'.clients != s.clients
    ensures HoldsWrite(s.run)
  {
    if !s.run.RegHeld? && !s.run.DelHeld? && !s.run.InfoSpawn? {
      BranchUnaffected(s, s');
    }
  }

  /** After Run has returned nothing is delivered, admitted or taken from a channel any more. */
  lemma NothingDrainsAfterReturn(s: State, s': State)
    requires Reachable(s) && s.run.RunReturned? && Step(s, s')
    ensures s'.run.RunReturned? && s'.clients == {} && s'.closed == s.closed && s'.log == s.log
    ensures s.register <= s'.register && s.unregister <= s'.unregister && s'.infos == s.infos
  {
    ReachableInv(s);
    if g :| SenderStep(s, s', g) {
      SenderFrame(s, s', g);
    } else {
      ReturnedRunIsStill(s, s');
      OutsideFrame(s, s');
    }
  }

  lemma ReturnedRunIsStill(s: State, s': State)
    requires s.run.RunReturned?
    ensures !RunStep(s, s')
  {}

  lemma PathExtends(path: seq<State>, s: State)
    requires IsPath(path) && Step(path[|path| - 1], s)
    ensures IsPath(path + [s])
  {
    var longer := path + [s];
    forall i | 0 <= i < |longer| - 1 ensures Step(longer[i], longer[i + 1]) {
      if i < |path| - 1 {
        assert longer[i] == path[i] && longer[i + 1] == path[i + 1];
      }
    }
  }

  lemma StepIsReachable(s: State, s': State)
    requires Reachable(s) && Step(s, s')
    ensures Reachable(s')
  {
    var run :| IsRun(run) && run[|run| - 1] == s;
    PathExtends(run, s');
    assert IsRun(run + [s']) && (run + [s'])[|run|] == s';
  }
}

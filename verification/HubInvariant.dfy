/** What every step of the hub and its users keeps. */
module HubInvariant {
  import opened AtomicHub
  import opened HubMachine

  // ---- the lock ----

  predicate HoldsRead(pc: RunPc) {
    || pc.InfoHeld? || pc.InfoRelease? || pc.UnregHeld? || pc.UnregRelease? || pc.CastLoop? || pc.CastSend?
  }

  predicate HoldsWrite(pc: RunPc) {
    || pc.RegHeld? || pc.RegUnlock? || pc.DelHeld? || pc.DelUnlock? || pc.DoneLoop? || pc.DoneDelete?
  }

  predicate Pends(pc: RunPc) {
    pc.RegWait? || pc.DelWait? || pc.DoneWait?
  }

  /** What the lock says about Run, and that a writer excludes every reader. */
  predicate RunLock(s: State) {
    && (s.lock.writer <==> HoldsWrite(s.run))
    && (s.lock.pending <==> Pends(s.run))
    && (RunHolder in s.lock.readers <==> HoldsRead(s.run))
    && (s.lock.writer ==> s.lock.readers == {})
  }

  ghost predicate SenderLock(s: State) {
    forall g :: SenderHolder(g) in s.lock.readers <==> g in s.senders && !s.senders[g].Wanting?
  }

  /** The lock says who holds it. */
  ghost predicate LockInv(s: State) {
    RunLock(s) && SenderLock(s)
  }

  // ---- clients ----

  /** Each client registers once, and only registered clients are ever unregistered. */
  ghost predicate RegisterInv(s: State) {
    && s.connecting !! s.sent
    && |s.register| <= CAPACITY
    && (forall c <- s.register :: c in s.sent && c !in s.consumed)
    && (forall c <- s.unregister :: c in s.sent)
    && s.consumed <= s.sent
  }

  /** The client Run has received but not yet inserted, or deleted but not yet closed. */
  function InFlight(pc: RunPc): set<Client> {
    match pc
    case RegWant(c) => {c}
    case RegWait(c) => {c}
    case RegHeld(c) => {c}
    case DelUnlock(c) => {c}
    case CloseSend(c) => {c}
    case _ => {}
  }

  /** Closed and still in the map: only inside the shutdown loop. */
  function Lingering(pc: RunPc): set<Client> {
    if pc.DoneDelete? then {pc.c} else {}
  }

  /** Every client ever received from Register is registered, in flight or closed. */
  predicate Conserved(s: State) {
    && s.consumed == s.clients + s.closed + InFlight(s.run)
    && InFlight(s.run) !! s.clients && InFlight(s.run) !! s.closed
    && s.clients * s.closed == Lingering(s.run)
  }

  /** The clients Run is about to act on are registered. */
  predicate RunTargets(s: State) {
    match s.run
    case UnregRelease(c, found) => found ==> c in s.clients
    case DelWant(c) => c in s.clients
    case DelWait(c) => c in s.clients
    case DelHeld(c) => c in s.clients
    case CastLoop(_, todo) => todo <= s.clients
    case CastSend(_, c, todo) => c in s.clients && c !in todo && todo <= s.clients
    case InfoRelease(n) => n == |s.clients|
    case InfoSpawn(n) => n == |s.clients|
    case RunReturned => s.clients == {} && s.done
    case DoneWant => s.done
    case DoneWait => s.done
    case DoneLoop => s.done
    case DoneDelete(_) => s.done
    case _ => true
  }

  /** A goroutine at its send is sending to a registered client. */
  predicate SenderTargets(s: State) {
    forall g | g in s.senders && s.senders[g].Sending? :: s.senders[g].c in s.clients
  }

  /** Everything but the lock. */
  ghost predicate ClientsInv(s: State) {
    RegisterInv(s) && Conserved(s) && RunTargets(s) && SenderTargets(s) && !s.panicked
  }

  ghost predicate Safe(s: State) {
    LockInv(s) && ClientsInv(s)
  }

  // ---- announcements ----

  /** The clients after a history of admissions and removals. */
  function ClientsAfter(events: seq<Event>): set<Client> {
    if events == [] then {}
    else
      var before := ClientsAfter(events[..|events| - 1]);
      match events[|events| - 1]
      case Admitted(c) => before + {c}
      case Removed(c) => before - {c}
  }

  /** The number of clients right after each event. */
  function Sizes(events: seq<Event>): multiset<nat> {
    if events == [] then multiset{}
    else Sizes(events[..|events| - 1]) + multiset{|ClientsAfter(events)|}
  }

  lemma EventsSnoc(events: seq<Event>, e: Event)
    ensures ClientsAfter(events + [e])
            == if e.Admitted? then ClientsAfter(events) + {e.c} else ClientsAfter(events) - {e.c}
    ensures Sizes(events + [e]) == Sizes(events) + multiset{|ClientsAfter(events + [e])|}
  {
    assert (events + [e])[..|events|] == events;
  }

  predicate Announcing(pc: RunPc) {
    || pc.RegUnlock? || pc.DelUnlock? || pc.CloseSend?
    || pc.InfoWant? || pc.InfoHeld? || pc.InfoRelease? || pc.InfoSpawn?
  }

  predicate ShuttingDown(pc: RunPc) {
    pc.DoneLoop? || pc.DoneDelete? || pc.RunReturned?
  }

  /** The announcement Run still has to spawn for the event it has just caused. */
  function Owed(s: State): multiset<nat> {
    if Announcing(s.run) then multiset{|s.clients|} else multiset{}
  }

  ghost predicate Informed(s: State) {
    && Sizes(s.events) == s.infos + multiset(s.taken) + Owed(s)
    && (!ShuttingDown(s.run) ==> s.clients == ClientsAfter(s.events))
  }

  ghost predicate Inv(s: State) {
    Safe(s) && Informed(s)
  }

  lemma InitInv()
    ensures Inv(INITIAL)
  {}

  // ---- the steps of Run keep safety ----

  lemma RegistersKeepsSafe(s: State, s': State)
    requires Safe(s) && RunRegisters(s, s')
    ensures Safe(s')
  {}

  lemma UnregistersKeepsSafe(s: State, s': State)
    requires Safe(s) && RunUnregisters(s, s')
    ensures Safe(s')
  {}

  lemma BroadcastsKeepsSafe(s: State, s': State, n: nat)
    requires Safe(s) && RunBroadcasts(s, s', n)
    ensures Safe(s')
  {}

  lemma ShutsDownKeepsSafe(s: State, s': State)
    requires Safe(s) && RunShutsDown(s, s')
    ensures Safe(s')
  {}

  /** A step of Run that leaves the clients alone. */
  predicate Quiet(s: State, s': State) {
    && s' == s.(run := s'.run, lock := s'.lock, infos := s'.infos, log := s'.log)
    && InFlight(s'.run) == InFlight(s.run) && Lingering(s'.run) == Lingering(s.run)
    && RunTargets(s')
  }

  lemma QuietKeepsClients(s: State, s': State)
    requires ClientsInv(s) && Quiet(s, s')
    ensures ClientsInv(s')
  {}

  /** A step of Run leaves the other readers in the lock. */
  predicate RunMovesLock(s: State, s': State) {
    && s'.senders == s.senders && RunLock(s')
    && (forall h <- s.lock.readers :: h != RunHolder ==> h in s'.lock.readers)
    && (forall h <- s'.lock.readers :: h != RunHolder ==> h in s.lock.readers)
  }

  lemma RunMoveKeepsLock(s: State, s': State)
    requires LockInv(s) && RunMovesLock(s, s')
    ensures LockInv(s')
  {}

  lemma RegisterBranchMovesLock(s: State, s': State)
    requires RunLock(s) && RunRegisterBranch(s, s')
    ensures RunMovesLock(s, s')
  {}

  lemma RegisterBranchIsQuiet(s: State, s': State)
    requires RunTargets(s) && RunRegisterBranch(s, s') && !(s.run.RegHeld?)
    ensures Quiet(s, s')
  {}

  lemma InsertKeepsClients(s: State, s': State)
    requires ClientsInv(s) && s.run.RegHeld? && RunRegisterBranch(s, s')
    ensures ClientsInv(s')
  {}

  lemma RegisterBranchKeepsClients(s: State, s': State)
    requires ClientsInv(s) && RunRegisterBranch(s, s')
    ensures ClientsInv(s')
  {
    if s.run.RegHeld? {
      InsertKeepsClients(s, s');
    } else {
      RegisterBranchIsQuiet(s, s');
      QuietKeepsClients(s, s');
    }
  }

  lemma RegisterBranchKeepsSafe(s: State, s': State)
    requires Safe(s) && RunRegisterBranch(s, s')
    ensures Safe(s')
  {
    RegisterBranchMovesLock(s, s');
    RunMoveKeepsLock(s, s');
    RegisterBranchKeepsClients(s, s');
  }

  lemma InfoBranchMovesLock(s: State, s': State)
    requires RunLock(s) && RunInfoBranch(s, s')
    ensures RunMovesLock(s, s')
  {}

  lemma InfoBranchIsQuiet(s: State, s': State)
    requires RunTargets(s) && RunInfoBranch(s, s')
    ensures Quiet(s, s')
  {}

  lemma InfoBranchKeepsClients(s: State, s': State)
    requires ClientsInv(s) && RunInfoBranch(s, s')
    ensures ClientsInv(s')
  {
    InfoBranchIsQuiet(s, s');
    QuietKeepsClients(s, s');
  }

  lemma InfoBranchKeepsSafe(s: State, s': State)
    requires Safe(s) && RunInfoBranch(s, s')
    ensures Safe(s')
  {
    InfoBranchMovesLock(s, s');
    RunMoveKeepsLock(s, s');
    InfoBranchKeepsClients(s, s');
  }

  lemma UnregisterBranchMovesLock(s: State, s': State)
    requires RunLock(s) && RunUnregisterBranch(s, s')
    ensures RunMovesLock(s, s')
  {}

  lemma UnregisterBranchIsQuiet(s: State, s': State)
    requires RunTargets(s) && RunUnregisterBranch(s, s')
    ensures Quiet(s, s')
  {}

  lemma UnregisterBranchKeepsClients(s: State, s': State)
    requires ClientsInv(s) && RunUnregisterBranch(s, s')
    ensures ClientsInv(s')
  {
    UnregisterBranchIsQuiet(s, s');
    QuietKeepsClients(s, s');
  }

  lemma UnregisterBranchKeepsSafe(s: State, s': State)
    requires Safe(s) && RunUnregisterBranch(s, s')
    ensures Safe(s')
  {
    UnregisterBranchMovesLock(s, s');
    RunMoveKeepsLock(s, s');
    UnregisterBranchKeepsClients(s, s');
  }

  lemma DeleteBranchMovesLock(s: State, s': State)
    requires RunLock(s) && RunDeleteBranch(s, s')
    ensures RunMovesLock(s, s')
  {}

  lemma DeleteBranchIsQuiet(s: State, s': State)
    requires RunTargets(s) && RunDeleteBranch(s, s') && !(s.run.DelHeld? || s.run.CloseSend?)
    ensures Quiet(s, s')
  {}

  lemma DeletionKeepsClients(s: State, s': State)
    requires ClientsInv(s) && SenderLock(s) && RunLock(s) && s.run.DelHeld? && RunDeleteBranch(s, s')
    ensures ClientsInv(s')
  {}

  lemma CloseSendKeepsClients(s: State, s': State)
    requires ClientsInv(s) && SenderLock(s) && RunLock(s) && s.run.CloseSend? && RunDeleteBranch(s, s')
    ensures ClientsInv(s')
  {}

  lemma DeleteBranchKeepsClients(s: State, s': State)
    requires ClientsInv(s) && SenderLock(s) && RunLock(s) && RunDeleteBranch(s, s')
    ensures ClientsInv(s')
  {
    if s.run.DelHeld? {
      DeletionKeepsClients(s, s');
    } else if s.run.CloseSend? {
      CloseSendKeepsClients(s, s');
    } else {
      DeleteBranchIsQuiet(s, s');
      QuietKeepsClients(s, s');
    }
  }

  lemma DeleteBranchKeepsSafe(s: State, s': State)
    requires Safe(s) && RunDeleteBranch(s, s')
    ensures Safe(s')
  {
    DeleteBranchMovesLock(s, s');
    RunMoveKeepsLock(s, s');
    DeleteBranchKeepsClients(s, s');
  }

  lemma CastBranchMovesLock(s: State, s': State)
    requires RunLock(s) && RunCastBranch(s, s')
    ensures RunMovesLock(s, s')
  {}

  lemma CastBranchIsQuiet(s: State, s': State)
    requires RunTargets(s) && RunCastBranch(s, s') && !(s.run.CastSend?)
    ensures Quiet(s, s')
  {}

  lemma CastSendKeepsClients(s: State, s': State)
    requires ClientsInv(s) && s.run.CastSend? && RunCastBranch(s, s')
    ensures ClientsInv(s')
  {}

  lemma CastBranchKeepsClients(s: State, s': State)
    requires ClientsInv(s) && RunCastBranch(s, s')
    ensures ClientsInv(s')
  {
    if s.run.CastSend? {
      CastSendKeepsClients(s, s');
    } else {
      CastBranchIsQuiet(s, s');
      QuietKeepsClients(s, s');
    }
  }

  lemma CastBranchKeepsSafe(s: State, s': State)
    requires Safe(s) && RunCastBranch(s, s')
    ensures Safe(s')
  {
    CastBranchMovesLock(s, s');
    RunMoveKeepsLock(s, s');
    CastBranchKeepsClients(s, s');
  }

  lemma DoneBranchMovesLock(s: State, s': State)
    requires RunLock(s) && RunDoneBranch(s, s')
    ensures RunMovesLock(s, s')
  {}

  lemma DoneBranchIsQuiet(s: State, s': State)
    requires RunTargets(s) && RunDoneBranch(s, s') && !(s.run.DoneLoop? || s.run.DoneDelete?)
    ensures Quiet(s, s')
  {}

  lemma DoneLoopKeepsClients(s: State, s': State)
    requires ClientsInv(s) && LockInv(s) && s.run.DoneLoop? && RunDoneBranch(s, s')
    ensures ClientsInv(s')
  {}

  lemma DoneDeleteKeepsClients(s: State, s': State)
    requires ClientsInv(s) && LockInv(s) && s.run.DoneDelete? && RunDoneBranch(s, s')
    ensures ClientsInv(s')
  {}

  lemma DoneBranchKeepsClients(s: State, s': State)
    requires ClientsInv(s) && LockInv(s) && RunDoneBranch(s, s')
    ensures ClientsInv(s')
  {
    if s.run.DoneLoop? {
      DoneLoopKeepsClients(s, s');
    } else if s.run.DoneDelete? {
      DoneDeleteKeepsClients(s, s');
    } else {
      DoneBranchIsQuiet(s, s');
      QuietKeepsClients(s, s');
    }
  }

  lemma DoneBranchKeepsSafe(s: State, s': State)
    requires Safe(s) && RunDoneBranch(s, s')
    ensures Safe(s')
  {
    DoneBranchMovesLock(s, s');
    RunMoveKeepsLock(s, s');
    DoneBranchKeepsClients(s, s');
  }

  lemma RunKeepsSafe(s: State, s': State)
    requires Safe(s) && RunStep(s, s')
    ensures Safe(s')
  {
    if RunRegisters(s, s') {
      RegistersKeepsSafe(s, s');
    } else if RunUnregisters(s, s') {
      UnregistersKeepsSafe(s, s');
    } else if n :| RunBroadcasts(s, s', n) {
      BroadcastsKeepsSafe(s, s', n);
    } else if RunShutsDown(s, s') {
      ShutsDownKeepsSafe(s, s');
    } else {
      BranchKeepsSafe(s, s');
    }
  }

  lemma BranchKeepsSafe(s: State, s': State)
    requires Safe(s) && RunInBranch(s, s')
    ensures Safe(s')
  {
    if RunRegisterBranch(s, s') {
      RegisterBranchKeepsSafe(s, s');
    } else if RunInfoBranch(s, s') {
      InfoBranchKeepsSafe(s, s');
    } else if RunUnregisterBranch(s, s') {
      UnregisterBranchKeepsSafe(s, s');
    } else if RunDeleteBranch(s, s') {
      DeleteBranchKeepsSafe(s, s');
    } else if RunCastBranch(s, s') {
      CastBranchKeepsSafe(s, s');
    } else {
      DoneBranchKeepsSafe(s, s');
    }
  }

  lemma SenderKeepsLock(s: State, s': State, g: nat)
    requires LockInv(s) && SenderStep(s, s', g)
    ensures LockInv(s')
  {}

  lemma SenderKeepsClients(s: State, s': State, g: nat)
    requires Safe(s) && SenderStep(s, s', g)
    ensures ClientsInv(s')
  {}

  lemma SenderKeepsSafe(s: State, s': State, g: nat)
    requires Safe(s) && SenderStep(s, s', g)
    ensures Safe(s')
  {
    SenderKeepsLock(s, s', g);
    SenderKeepsClients(s, s', g);
  }

  // ---- and so do all the others ----

  lemma ConnectsKeepsSafe(s: State, s': State, c: Client)
    requires Safe(s) && ClientConnects(s, s', c)
    ensures Safe(s')
  {}

  lemma RegisterSentKeepsSafe(s: State, s': State, c: Client)
    requires Safe(s) && RegisterSent(s, s', c)
    ensures Safe(s')
  {}

  lemma UnregisterSentKeepsSafe(s: State, s': State, c: Client)
    requires Safe(s) && UnregisterSent(s, s', c)
    ensures Safe(s')
  {}

  lemma SenderStartsKeepsSafe(s: State, s': State, g: nat, c: Client, m: Message)
    requires Safe(s) && SenderStarts(s, s', g, c, m)
    ensures Safe(s')
  {}

  lemma WriteLoopExitsKeepsSafe(s: State, s': State, c: Client)
    requires Safe(s) && WriteLoopExits(s, s', c)
    ensures Safe(s')
  {}

  lemma HubClosesKeepsSafe(s: State, s': State)
    requires Safe(s) && HubCloses(s, s')
    ensures Safe(s')
  {}

  lemma OutsideKeepsSafe(s: State, s': State)
    requires Safe(s) && OutsideStep(s, s')
    ensures Safe(s')
  {
    if c :| ClientConnects(s, s', c) {
      ConnectsKeepsSafe(s, s', c);
    } else if c :| RegisterSent(s, s', c) {
      RegisterSentKeepsSafe(s, s', c);
    } else if c :| UnregisterSent(s, s', c) {
      UnregisterSentKeepsSafe(s, s', c);
    } else if c :| WriteLoopExits(s, s', c) {
      WriteLoopExitsKeepsSafe(s, s', c);
    } else if g, c, m :| SenderStarts(s, s', g, c, m) {
      SenderStartsKeepsSafe(s, s', g, c, m);
    } else {
      HubClosesKeepsSafe(s, s');
    }
  }

  // ---- and the announcements ----

  /** A step that neither causes, spawns nor delivers an announcement. */
  ghost predicate Unaffected(s: State, s': State) {
    && s'.events == s.events && s'.infos == s.infos && s'.taken == s.taken
    && (Announcing(s'.run) <==> Announcing(s.run))
    && (ShuttingDown(s.run) ==> ShuttingDown(s'.run))
    && (s'.clients == s.clients || ShuttingDown(s.run))
  }

  lemma UnaffectedKeepsInformed(s: State, s': State)
    requires Informed(s) && Unaffected(s, s')
    ensures Informed(s')
  {}

  lemma SpawnKeepsInformed(s: State, s': State)
    requires Informed(s) && RunTargets(s) && s.run.InfoSpawn? && RunInfoBranch(s, s')
    ensures Informed(s')
  {
    SpawnMoves(s.infos, multiset(s.taken), |s.clients|);
    assert s'.clients == s.clients && s'.events == s.events && s'.taken == s.taken;
  }

  lemma SpawnMoves(infos: multiset<nat>, taken: multiset<nat>, n: nat)
    ensures infos + multiset{n} + taken + multiset{} == infos + taken + multiset{n}
  {}

  lemma DeliveryKeepsInformed(s: State, s': State, n: nat)
    requires Informed(s) && RunBroadcasts(s, s', n)
    ensures Informed(s')
  {
    TakeAnnouncement(s.infos, s.taken, n);
  }

  lemma TakeAnnouncement(infos: multiset<nat>, taken: seq<nat>, n: nat)
    requires n in infos
    ensures infos - multiset{n} + multiset(taken + [n]) == infos + multiset(taken)
  {}

  lemma EventKeepsInformed(s: State, s': State, e: Event)
    requires Informed(s) && !Announcing(s.run) && !ShuttingDown(s.run)
    requires s'.events == s.events + [e] && s'.infos == s.infos && s'.taken == s.taken
    requires s'.clients == if e.Admitted? then s.clients + {e.c} else s.clients - {e.c}
    requires Announcing(s'.run)
    ensures Informed(s')
  {
    EventsSnoc(s.events, e);
  }

  lemma RegisterBranchUnaffected(s: State, s': State)
    requires RunRegisterBranch(s, s') && !s.run.RegHeld? && !s.run.DelHeld? && !s.run.InfoSpawn?
    ensures Unaffected(s, s')
  {}

  lemma InfoBranchUnaffected(s: State, s': State)
    requires RunInfoBranch(s, s') && !s.run.RegHeld? && !s.run.DelHeld? && !s.run.InfoSpawn?
    ensures Unaffected(s, s')
  {}

  lemma UnregisterBranchUnaffected(s: State, s': State)
    requires RunUnregisterBranch(s, s') && !s.run.RegHeld? && !s.run.DelHeld? && !s.run.InfoSpawn?
    ensures Unaffected(s, s')
  {}

  lemma DeleteBranchUnaffected(s: State, s': State)
    requires RunDeleteBranch(s, s') && !s.run.RegHeld? && !s.run.DelHeld? && !s.run.InfoSpawn?
    ensures Unaffected(s, s')
  {}

  lemma CastBranchUnaffected(s: State, s': State)
    requires RunCastBranch(s, s') && !s.run.RegHeld? && !s.run.DelHeld? && !s.run.InfoSpawn?
    ensures Unaffected(s, s')
  {}

  lemma DoneBranchUnaffected(s: State, s': State)
    requires RunDoneBranch(s, s') && !s.run.RegHeld? && !s.run.DelHeld? && !s.run.InfoSpawn?
    ensures Unaffected(s, s')
  {}

  lemma BranchUnaffected(s: State, s': State)
    requires RunInBranch(s, s') && !s.run.RegHeld? && !s.run.DelHeld? && !s.run.InfoSpawn?
    ensures Unaffected(s, s')
  {
    if RunRegisterBranch(s, s') {
      RegisterBranchUnaffected(s, s');
    } else if RunInfoBranch(s, s') {
      InfoBranchUnaffected(s, s');
    } else if RunUnregisterBranch(s, s') {
      UnregisterBranchUnaffected(s, s');
    } else if RunDeleteBranch(s, s') {
      DeleteBranchUnaffected(s, s');
    } else if RunCastBranch(s, s') {
      CastBranchUnaffected(s, s');
    } else {
      DoneBranchUnaffected(s, s');
    }
  }

  lemma InsertKeepsInformed(s: State, s': State)
    requires Informed(s) && s.run.RegHeld? && RunRegisterBranch(s, s')
    ensures Informed(s')
  {
    EventKeepsInformed(s, s', Admitted(s.run.c));
  }

  lemma DeletionKeepsInformed(s: State, s': State)
    requires Informed(s) && s.run.DelHeld? && RunDeleteBranch(s, s')
    ensures Informed(s')
  {
    EventKeepsInformed(s, s', Removed(s.run.c));
  }

  lemma QuietBranchKeepsInformed(s: State, s': State)
    requires Informed(s) && RunInBranch(s, s') && !s.run.RegHeld? && !s.run.DelHeld? && !s.run.InfoSpawn?
    ensures Informed(s')
  {
    BranchUnaffected(s, s');
    UnaffectedKeepsInformed(s, s');
  }

  lemma BranchKeepsInformed(s: State, s': State)
    requires Informed(s) && RunTargets(s) && RunInBranch(s, s')
    ensures Informed(s')
  {
    if s.run.RegHeld? {
      InsertKeepsInformed(s, s');
    } else if s.run.DelHeld? {
      DeletionKeepsInformed(s, s');
    } else if s.run.InfoSpawn? {
      SpawnKeepsInformed(s, s');
    } else {
      QuietBranchKeepsInformed(s, s');
    }
  }

  lemma SelectsUnaffected(s: State, s': State)
    requires RunRegisters(s, s') || RunUnregisters(s, s') || RunShutsDown(s, s')
    ensures Unaffected(s, s')
  {}

  lemma SelectsKeepsInformed(s: State, s': State)
    requires Informed(s) && RunSelects(s, s')
    ensures Informed(s')
  {
    if n :| RunBroadcasts(s, s', n) {
      DeliveryKeepsInformed(s, s', n);
    } else {
      SelectsUnaffected(s, s');
      UnaffectedKeepsInformed(s, s');
    }
  }

  lemma SenderUnaffected(s: State, s': State, g: nat)
    requires SenderStep(s, s', g)
    ensures Unaffected(s, s')
  {}

  /** What the goroutines that hold no lock can change; nobody starts listening again. */
  ghost predicate OnlyOutside(s: State, s': State) {
    && s' == s.(connecting := s'.connecting, listening := s'.listening, sent := s'.sent, register := s'.register,
                unregister := s'.unregister, senders := s'.senders, done := s'.done)
    && s.register <= s'.register && s.unregister <= s'.unregister
  }

  lemma ChannelsOnlyOutside(s: State, s': State, c: Client)
    requires RegisterSent(s, s', c) || UnregisterSent(s, s', c)
    ensures OnlyOutside(s, s')
  {}

  lemma ClientsOnlyOutside(s: State, s': State, c: Client)
    requires ClientConnects(s, s', c) || WriteLoopExits(s, s', c)
    ensures OnlyOutside(s, s')
  {}

  lemma StartsOnlyOutside(s: State, s': State, g: nat, c: Client, m: Message)
    requires SenderStarts(s, s', g, c, m)
    ensures OnlyOutside(s, s')
  {}

  lemma OutsideIsOutside(s: State, s': State)
    requires OutsideStep(s, s')
    ensures OnlyOutside(s, s')
  {
    if c :| ClientConnects(s, s', c) || WriteLoopExits(s, s', c) {
      ClientsOnlyOutside(s, s', c);
    } else if c :| RegisterSent(s, s', c) || UnregisterSent(s, s', c) {
      ChannelsOnlyOutside(s, s', c);
    } else if g, c, m :| SenderStarts(s, s', g, c, m) {
      StartsOnlyOutside(s, s', g, c, m);
    }
  }

  lemma OutsideUnaffected(s: State, s': State)
    requires OnlyOutside(s, s')
    ensures Unaffected(s, s')
  {}

  lemma StepKeepsInv(s: State, s': State)
    requires Inv(s) && Step(s, s')
    ensures Inv(s')
  {
    if RunStep(s, s') {
      RunKeepsSafe(s, s');
      if RunSelects(s, s') {
        SelectsKeepsInformed(s, s');
      } else {
        BranchKeepsInformed(s, s');
      }
    } else if g :| SenderStep(s, s', g) {
      SenderKeepsSafe(s, s', g);
      SenderUnaffected(s, s', g);
      UnaffectedKeepsInformed(s, s');
    } else {
      OutsideKeepsSafe(s, s');
      OutsideIsOutside(s, s');
      OutsideUnaffected(s, s');
      UnaffectedKeepsInformed(s, s');
    }
  }

  lemma {:induction false} RunKeepsInv(run: seq<State>)
    requires IsRun(run)
    ensures Inv(run[|run| - 1])
  {
    if |run| == 1 {
      InitInv();
    } else {
      var front := run[..|run| - 1];
      assert IsRun(front);
      RunKeepsInv(front);
      assert Step(run[|run| - 2], run[|run| - 2 + 1]);
      StepKeepsInv(run[|run| - 2], run[|run| - 1]);
    }
  }

  lemma ReachableInv(s: State)
    requires Reachable(s)
    ensures Inv(s)
  {
    var run :| IsRun(run) && run[|run| - 1] == s;
    RunKeepsInv(run);
  }
}

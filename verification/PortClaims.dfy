/**
  No undisturbed port is claimed twice: what every step of the connections and the
  server keeps, and what that means for a connection's port.
 */
module PortClaims {
  import opened Wrappers
  import opened PortOwnership
  import opened RegistryInvariant
  import RegistrySockets
  import RegistryTheorems
  import R = RegistryMachine
  import T = TwoTasks

  // ---- the invariant ----

  /** A claimed stream that made it into the map and is not disturbed is still there. */
  ghost predicate SafeClaims(s: State) {
    forall st | Claimed(s, st) && st in s.registry.inserted && st !in s.disturbed :: Registered(s.registry, st)
  }

  predicate SamePort(r: R.State, a: R.StreamId, b: R.StreamId) {
    a in r.portOf && b in r.portOf && r.portOf[a] == r.portOf[b]
  }

  /** Where one of two claimed streams with the same port is not disturbed they are one. */
  ghost predicate Exclusive(s: State) {
    forall a, b | Claimed(s, a) && Claimed(s, b) && SamePort(s.registry, a, b) && a !in s.disturbed :: a == b
  }

  ghost predicate ClaimsInv(s: State) {
    && s.registry.failedReaders <= s.disturbed
    && (forall st | Claimed(s, st) :: st in s.registry.portOf)
    && SafeClaims(s) && Exclusive(s)
  }

  /** The request that is about to close an undisturbed connection's socket is that connection's own. */
  ghost predicate ClosersInv(s: State) {
    forall c, id | c in s.owner && RegistrySockets.IsClosing(s.registry, id, s.owner[c])
        && s.owner[c] !in s.disturbed ::
      id in s.askers && s.askers[id] == c
  }

  ghost predicate FullInv(s: State) {
    LinkInv(s) && ClaimsInv(s) && ClosersInv(s)
  }

  // ---- steps that make no claims ----

  /** No request gets a stream. */
  predicate NoNewStream(r: R.State, r': R.State) {
    forall id <- r'.processes :: StreamOf(r'.processes[id]).Some? ==>
      id in r.processes && StreamOf(r.processes[id]) == StreamOf(r'.processes[id])
  }

  ghost predicate NoNewCloser(r: R.State, r': R.State) {
    forall id, st :: RegistrySockets.IsClosing(r', id, st) ==> RegistrySockets.IsClosing(r, id, st)
  }

  ghost predicate NoNewClaim(s: State, s': State) {
    forall st :: Claimed(s', st) ==> Claimed(s, st)
  }

  lemma HoldersMakeNoClaim(s: State, s': State)
    requires NoNewStream(s.registry, s'.registry) && s'.owner == s.owner && SameHolders(s, s')
    requires forall id <- s'.askers :: id in s.askers || id !in s.registry.processes
    ensures NoNewClaim(s, s')
  {
    forall st | Claimed(s', st) ensures Claimed(s, st) {
      if id :| Awaits(s', id, st) {
        assert Awaits(s, id, st);
      } else {
        var c :| Keeps(s', c, st);
        assert Keeps(s, c, st);
      }
    }
  }

  /** Fewer claims, more disturbance, and the entries of claimed streams stay. */
  lemma FewerClaimsKeep(s: State, s': State)
    requires ClaimsInv(s) && NoNewClaim(s, s')
    requires s.disturbed <= s'.disturbed && s'.registry.failedReaders <= s'.disturbed
    requires forall st <- s.registry.portOf ::
        st in s'.registry.portOf && s'.registry.portOf[st] == s.registry.portOf[st]
    requires forall st | Claimed(s', st) && st in s'.registry.inserted && st !in s'.disturbed ::
        Registered(s'.registry, st)
    ensures ClaimsInv(s')
  {}

  lemma MildKeepsClaims(s: State, s': State)
    requires RegistryInvariant.SocketsInv(s.registry) && ClaimsInv(s) && NoNewClaim(s, s')
        && Mild(s.registry, s'.registry)
    requires s.disturbed <= s'.disturbed && s'.registry.failedReaders <= s'.disturbed
    ensures ClaimsInv(s')
  {
    forall st | Claimed(s', st) && st in s'.registry.inserted && st !in s'.disturbed
      ensures Registered(s'.registry, st)
    {
      MildKeepsRegistered(s.registry, s'.registry, st);
    }
    FewerClaimsKeep(s, s');
  }

  lemma ClosersStay(s: State, s': State)
    requires ClosersInv(s) && NoNewCloser(s.registry, s'.registry) && s'.owner == s.owner && s.disturbed <= s'.disturbed
    requires forall id | id in s.askers && id in s'.registry.processes ::
        id in s'.askers && s'.askers[id] == s.askers[id]
    ensures ClosersInv(s')
  {
    forall c, id | c in s'.owner && RegistrySockets.IsClosing(s'.registry, id, s'.owner[c])
        && s'.owner[c] !in s'.disturbed
      ensures id in s'.askers && s'.askers[id] == c
    {
      assert RegistrySockets.IsClosing(s.registry, id, s.owner[c]);
    }
  }

  /** The two invariants survive a mild step of requests that makes no claim. */
  lemma MildKeepsFull(s: State, s': State)
    requires FullInv(s) && LinkInv(s') && Mild(s.registry, s'.registry) && SameHolders(s, s') && s'.owner == s.owner
    requires NoNewStream(s.registry, s'.registry) && NoNewCloser(s.registry, s'.registry)
    requires forall id <- s'.askers :: id in s.askers || id !in s.registry.processes
    requires forall id | id in s.askers && id in s'.registry.processes ::
        id in s'.askers && s'.askers[id] == s.askers[id]
    requires s.disturbed <= s'.disturbed && s'.registry.failedReaders <= s'.disturbed
    ensures FullInv(s')
  {
    HoldersMakeNoClaim(s, s');
    MildKeepsClaims(s, s');
    ClosersStay(s, s');
  }

  lemma StartMakesNothing(r: R.State, r': R.State, id: nat, port: R.Port)
    requires R.CreateStarts(r, r', id, port) || R.DeleteStarts(r, r', id, port)
    ensures NoNewStream(r, r') && NoNewCloser(r, r')
  {}

  lemma EndMakesNothing(r: R.State, r': R.State, id: nat)
    requires R.RequestEnds(r, r', id)
    ensures NoNewStream(r, r') && NoNewCloser(r, r') && id !in r'.processes
  {}

  lemma ConnectsKeepsFull(s: State, s': State, c: ConnId)
    requires FullInv(s) && Connects(s, s', c)
    ensures FullInv(s')
  {
    ConnectsKeeps(s, s', c);
    ConnectsKeepsRequests(s, s', c);
    NothingIsMild(s.registry);
    MildKeepsFull(s, s');
  }

  lemma MovedKeepsFull(s: State, s': State, c: ConnId, t: T.State)
    requires FullInv(s) && c in s.conns && s' == s.(conns := s.conns[c := t]) && KeepsPort(s.conns[c], t) && Sane(t)
    ensures FullInv(s')
  {
    MovedKeeps(s, s', c, t);
    InternalKeepsHolders(s, s', c, t);
    NothingIsMild(s.registry);
    MildKeepsFull(s, s');
  }

  lemma PostSentKeepsFull(s: State, s': State, c: ConnId, id: nat)
    requires FullInv(s) && PostSent(s, s', c, id)
    ensures FullInv(s')
  {
    PostSentKeeps(s, s', c, id);
    PostSentKeepsRequests(s, s', c, id);
    StartIsMild(s.registry, s'.registry, id, 0);
    StartMakesNothing(s.registry, s'.registry, id, 0);
    MildKeepsFull(s, s');
  }

  lemma DeleteSentKeepsFull(s: State, s': State, c: ConnId, id: nat)
    requires FullInv(s) && DeleteSent(s, s', c, id)
    ensures FullInv(s')
  {
    var port := s.conns[c].conn.rtpPort.value;
    DeleteSentKeeps(s, s', c, id);
    DeleteSentKeepsRequests(s, s', c, id);
    StartIsMild(s.registry, s'.registry, id, port);
    StartMakesNothing(s.registry, s'.registry, id, port);
    MildKeepsFull(s, s');
  }

  lemma OtherCreatesKeepsFull(s: State, s': State, id: nat, want: R.Port)
    requires FullInv(s) && OtherCreates(s, s', id, want)
    ensures FullInv(s')
  {
    OtherCreatesKeeps(s, s', id, want);
    StartIsMild(s.registry, s'.registry, id, want);
    OthersKeepRequests(s, s');
    StartMakesNothing(s.registry, s'.registry, id, want);
    MildKeepsFull(s, s');
  }

  lemma OtherEndsKeepsFull(s: State, s': State, id: nat)
    requires FullInv(s) && OtherEnds(s, s', id)
    ensures FullInv(s')
  {
    OtherEndsKeeps(s, s', id);
    EndIsMild(s.registry, s'.registry, id);
    OthersKeepRequests(s, s');
    EndMakesNothing(s.registry, s'.registry, id);
    MildKeepsFull(s, s');
  }

  lemma ReaderFailsKeepsFull(s: State, s': State, st: R.StreamId)
    requires FullInv(s) && ReaderFails(s, s', st)
    ensures FullInv(s')
  {
    ReaderFailsKeeps(s, s', st);
    FailureIsMild(s.registry, s'.registry, st);
    OthersKeepRequests(s, s');
    MildKeepsFull(s, s');
  }

  lemma RefusedKeepsFull(s: State, s': State, c: ConnId, id: nat, t: T.State)
    requires FullInv(s) && c in s.conns && id in s.askers && s.askers[id] == c && Sane(t)
    requires R.RequestEnds(s.registry, s'.registry, id)
    requires s' == s.(registry := s'.registry, conns := s.conns[c := t], askers := s.askers - {id})
    requires t.conn.rtpPort == s.conns[c].conn.rtpPort
    requires c in s.owner ==> t.command.CommandReturned? && GaveUp(s, c, id)
    ensures FullInv(s')
  {
    RefusedKeeps(s, s', c, id, t);
    RefusedKeepsRequests(s, s', c, id, t);
    RefusedKeepsHolders(s, s', c, id);
    EndIsMild(s.registry, s'.registry, id);
    EndMakesNothing(s.registry, s'.registry, id);
    MildKeepsFull(s, s');
  }

  // ---- a promised stream becomes the connection's own ----

  lemma GrantMakesNoClaim(s: State, s': State, c: ConnId, id: nat, t: T.State)
    requires RequestsInv(s) && OwnersInv(s) && Granted(s, s', c, id, t)
    ensures NoNewClaim(s, s') && Claimed(s, s.registry.processes[id].create.st)
  {
    GrantMakesHolder(s, s', c, id, t);
    assert Awaits(s, id, s.registry.processes[id].create.st);
    forall st | Claimed(s', st) ensures Claimed(s, st) {
      if k :| Awaits(s', k, st) {
        assert Awaits(s, k, st);
      } else {
        var d :| Keeps(s', d, st);
        assert d != c ==> Keeps(s, d, st);
      }
    }
  }

  lemma GrantKeepsClosers(s: State, s': State, c: ConnId, id: nat, t: T.State)
    requires UnmakersInv(s.registry) && UnclaimedInv(s) && ClaimsInv(s) && ClosersInv(s)
    requires Granted(s, s', c, id, t) && Claimed(s, s.registry.processes[id].create.st)
    ensures ClosersInv(s')
  {
    forall d, k | d in s'.owner && RegistrySockets.IsClosing(s'.registry, k, s'.owner[d])
        && s'.owner[d] !in s'.disturbed
      ensures k in s'.askers && s'.askers[k] == d
    {
      assert RegistrySockets.IsClosing(s.registry, k, s'.owner[d]);
      if d == c {
        assert false;
      }
    }
  }

  lemma GrantKeepsFull(s: State, s': State, c: ConnId, id: nat, t: T.State)
    requires FullInv(s) && Granted(s, s', c, id, t) && Sane(t)
    ensures FullInv(s')
  {
    GrantKeeps(s, s', c, id, t);
    GrantMakesNoClaim(s, s', c, id, t);
    GrantKeepsClosers(s, s', c, id, t);
    EndIsMild(s.registry, s'.registry, id);
    MildKeepsClaims(s, s');
  }

  lemma PostAnsweredKeepsFull(ws: Worlds, s: State, s': State, c: ConnId, id: nat, t: T.State)
    requires FullInv(s) && PostAnswered(ws, s, s', c, id, t) && Sane(t)
    ensures FullInv(s')
  {
    if IsCreated(s.registry.processes[id]) {
      AnswerGrants(ws, s, s', c, id, t);
      GrantKeepsFull(s, s', c, id, t);
    } else {
      RefusedKeepsFull(s, s', c, id, t);
    }
  }

  // ---- the server's own steps ----

  lemma NoneAfflicted(s: State, r: R.State)
    requires r.portOf.Keys == s.registry.portOf.Keys
    ensures Afflicted(s, r) == {}
  {}

  lemma MakingMakesNothing(r: R.State, r': R.State, id: nat)
    requires R.ListenFails(r, r', id) || R.TracksMade(r, r', id) || R.TracksFail(r, r', id)
    ensures NoNewStream(r, r') && NoNewCloser(r, r') && r'.portOf == r.portOf && r'.failedReaders == r.failedReaders
  {}

  lemma ClosingMakesNothing(r: R.State, r': R.State, id: nat)
    requires R.ClosesConn(r, r', id) || R.TestsHub(r, r', id) || R.ClosesHub(r, r', id)
    ensures NoNewStream(r, r') && NoNewCloser(r, r') && r'.portOf == r.portOf && r'.failedReaders == r.failedReaders
  {}

  lemma QuietWorkKeepsFull(s: State, s': State, id: nat)
    requires FullInv(s) && ServerWorks(s, s', id)
    requires || R.ListenFails(s.registry, s'.registry, id) || R.TracksMade(s.registry, s'.registry, id)
             || R.TracksFail(s.registry, s'.registry, id) || R.ClosesConn(s.registry, s'.registry, id)
             || R.TestsHub(s.registry, s'.registry, id) || R.ClosesHub(s.registry, s'.registry, id)
    ensures FullInv(s')
  {
    WorkKeeps(s, s', id);
    WorkIsMild(s.registry, s'.registry, id);
    OthersKeepRequests(s, s');
    if R.ClosesConn(s.registry, s'.registry, id) || R.TestsHub(s.registry, s'.registry, id)
       || R.ClosesHub(s.registry, s'.registry, id) {
      ClosingMakesNothing(s.registry, s'.registry, id);
    } else {
      MakingMakesNothing(s.registry, s'.registry, id);
    }
    NoneAfflicted(s, s'.registry);
    MildKeepsFull(s, s');
  }

  /** An undisturbed claimed stream holds its port's socket. */
  lemma ClaimHoldsSocket(s: State, st: R.StreamId)
    requires RegistryInvariant.Inv(s.registry) && RequestsInv(s) && OwnersInv(s) && UnclaimedInv(s) && ClaimsInv(s)
    requires Claimed(s, st) && st !in s.disturbed
    ensures HasSocket(s.registry, st)
  {
    if st in s.registry.inserted {
      assert Registered(s.registry, st);
    } else {
      assert forall c :: !Keeps(s, c, st);
      var id :| Awaits(s, id, st);
      assert Making(s.registry.processes[id]) == Some(st);
    }
  }

  lemma ListensClaimsOne(s: State, s': State, id: nat, st: R.StreamId, port: R.Port)
    requires R.Listens(s.registry, s'.registry, id, st, port) && OnlyServer(s, s') && SameHolders(s, s')
    ensures forall x | Claimed(s', x) && x != st :: Claimed(s, x)
  {
    forall x | Claimed(s', x) && x != st ensures Claimed(s, x) {
      if k :| Awaits(s', k, x) {
        assert Awaits(s, k, x);
      } else {
        var c :| Keeps(s', c, x);
        assert Keeps(s, c, x);
      }
    }
  }

  /** The port is free, so whoever still claims it does so through a disturbed stream. */
  lemma FreePortIsDisturbed(s: State, port: R.Port, x: R.StreamId)
    requires RegistryInvariant.Inv(s.registry) && RequestsInv(s) && OwnersInv(s) && UnclaimedInv(s) && ClaimsInv(s)
    requires Claimed(s, x) && s.registry.portOf[x] == port && port !in s.registry.bound
    ensures x in s.disturbed && Disturbing(s, port)
  {
    if x !in s.disturbed {
      ClaimHoldsSocket(s, x);
      assert false;
    }
  }

  lemma ListensAfflicts(s: State, s': State, id: nat, st: R.StreamId, port: R.Port)
    requires ServerWorks(s, s', id) && R.Listens(s.registry, s'.registry, id, st, port) && Disturbing(s, port)
    ensures st in s'.disturbed
  {
    assert st in Afflicted(s, s'.registry);
  }

  lemma OneMoreClaim(s: State, s': State, st: R.StreamId, port: R.Port)
    requires ClaimsInv(s) && (forall x | Claimed(s', x) && x != st :: Claimed(s, x))
    requires s'.registry.streams == s.registry.streams && s'.registry.inserted == s.registry.inserted
    requires s'.registry.failedReaders == s.registry.failedReaders
    requires st !in s.registry.inserted && st !in s.registry.portOf
    requires s'.registry.portOf == s.registry.portOf[st := port] && s.disturbed <= s'.disturbed
    requires forall x | Claimed(s, x) && s.registry.portOf[x] == port :: x in s.disturbed && st in s'.disturbed
    ensures ClaimsInv(s')
  {}

  /** A stream that gets a socket either has the port to itself or is disturbed like those that claim it. */
  lemma ListensKeepsClaims(s: State, s': State, id: nat, st: R.StreamId, port: R.Port)
    requires LinkInv(s) && ClaimsInv(s) && ServerWorks(s, s', id) && R.Listens(s.registry, s'.registry, id, st, port)
    requires SameHolders(s, s')
    ensures ClaimsInv(s')
  {
    ListensClaimsOne(s, s', id, st, port);
    forall x | Claimed(s, x) && s.registry.portOf[x] == port ensures x in s.disturbed && st in s'.disturbed {
      FreePortIsDisturbed(s, port, x);
      ListensAfflicts(s, s', id, st, port);
    }
    OneMoreClaim(s, s', st, port);
  }

  lemma ListensMakesNoCloser(r: R.State, r': R.State, id: nat, st: R.StreamId, port: R.Port)
    requires R.Listens(r, r', id, st, port)
    ensures NoNewCloser(r, r')
  {}

  lemma ListensKeepsFull(s: State, s': State, id: nat, st: R.StreamId, port: R.Port)
    requires FullInv(s) && ServerWorks(s, s', id) && R.Listens(s.registry, s'.registry, id, st, port)
    ensures FullInv(s')
  {
    WorkKeeps(s, s', id);
    WorkIsMild(s.registry, s'.registry, id);
    OthersKeepRequests(s, s');
    ListensKeepsClaims(s, s', id, st, port);
    ListensMakesNoCloser(s.registry, s'.registry, id, st, port);
    ClosersStay(s, s');
  }

  lemma InsertsMakesNothing(r: R.State, r': R.State, id: nat)
    requires R.Inserts(r, r', id)
    ensures NoNewStream(r, r') && NoNewCloser(r, r') && r'.portOf == r.portOf && r'.failedReaders == r.failedReaders
  {}

  /** The inserted stream has the socket, so no undisturbed claimed stream had the entry. */
  lemma InsertSpares(r: R.State, r': R.State, id: nat, st: R.StreamId)
    requires RegistryInvariant.Inv(r) && R.Inserts(r, r', id) && st in r'.inserted && st !in r.failedReaders
    requires st in r.inserted ==> Registered(r, st)
    ensures Registered(r', st)
  {}

  lemma InsertsKeepsFull(s: State, s': State, id: nat)
    requires FullInv(s) && ServerWorks(s, s', id) && R.Inserts(s.registry, s'.registry, id)
    ensures FullInv(s')
  {
    InsertsKeeps(s, s', id);
    InsertsKeepsRequests(s, s', id);
    InsertsMakesNothing(s.registry, s'.registry, id);
    NoneAfflicted(s, s'.registry);
    HoldersMakeNoClaim(s, s');
    forall st | Claimed(s', st) && st in s'.registry.inserted && st !in s'.disturbed
      ensures Registered(s'.registry, st)
    {
      InsertSpares(s.registry, s'.registry, id, st);
    }
    FewerClaimsKeep(s, s');
    ClosersStay(s, s');
  }

  lemma LookUpMakesNoStream(r: R.State, r': R.State, id: nat)
    requires R.LooksUp(r, r', id)
    ensures NoNewStream(r, r') && r'.portOf == r.portOf && r'.failedReaders == r.failedReaders
        && r'.inserted == r.inserted
  {}

  /** The asker's claim ends, and nobody gets a new one. */
  lemma LookUpEndsClaim(s: State, s': State, id: nat)
    requires RequestsInv(s) && OwnersInv(s) && MakersInv(s.registry) && UnclaimedInv(s)
    requires R.LooksUp(s.registry, s'.registry, id) && OnlyServer(s, s')
    ensures NoNewClaim(s, s') && id in s.askers && s.askers[id] in s.owner
    ensures Claimed(s, s.owner[s.askers[id]]) && !Claimed(s', s.owner[s.askers[id]])
  {
    AskerHolds(s, id);
    LooksUpKeepsRequests(s, s', id);
    LookUpMakesNoStream(s.registry, s'.registry, id);
    var b := s.askers[id];
    assert Keeps(s, b, s.owner[b]);
    forall st | Claimed(s', st) ensures Claimed(s, st) && st != s.owner[b] {
      if k :| Awaits(s', k, st) {
        assert Awaits(s, k, st);
        OwnersAwaitNothing(s, k, b);
      } else {
        var c :| Keeps(s', c, st);
        assert c != b && Keeps(s, c, st);
      }
    }
  }

  lemma OwnersAwaitNothing(s: State, id: nat, c: ConnId)
    requires OwnersInv(s) && MakersInv(s.registry) && UnclaimedInv(s) && c in s.owner
    ensures !Awaits(s, id, s.owner[c])
  {
    if Awaits(s, id, s.owner[c]) && !IsCreated(s.registry.processes[id]) {
      assert false;
    }
  }

  lemma LooksUpKeepsClaims(s: State, s': State, id: nat)
    requires LinkInv(s) && ClaimsInv(s) && R.LooksUp(s.registry, s'.registry, id) && OnlyServer(s, s')
    requires s'.disturbed == s.disturbed
    ensures ClaimsInv(s')
  {
    LookUpEndsClaim(s, s', id);
    AskerHolds(s, id);
    LookUpMakesNoStream(s.registry, s'.registry, id);
    var mine := s.owner[s.askers[id]];
    forall st | Claimed(s', st) && st in s'.registry.inserted && st !in s'.disturbed
      ensures Registered(s'.registry, st)
    {
      assert SamePort(s.registry, st, mine) ==> st == mine;
      LookUpTakesOne(s.registry, s'.registry, id, st);
    }
    FewerClaimsKeep(s, s');
  }

  /** A look-up that finds an undisturbed connection's stream is that connection's. */
  lemma FoundIsOwn(s: State, id: nat, c: ConnId)
    requires RequestsInv(s) && OwnersInv(s) && GoneInv(s) && ClaimsInv(s) && c in s.owner && s.owner[c] !in s.disturbed
    requires id in s.registry.processes && s.registry.processes[id].Delete? && s.registry.processes[id].delete.Looking?
    requires Registered(s.registry, s.owner[c])
    requires s.registry.portOf[s.owner[c]] == s.registry.processes[id].delete.port
    ensures id in s.askers && s.askers[id] == c
  {
    AskerHolds(s, id);
    var b := s.askers[id];
    assert Keeps(s, c, s.owner[c]) && Keeps(s, b, s.owner[b]);
    assert SamePort(s.registry, s.owner[c], s.owner[b]);
  }

  lemma LookUpClosesFound(r: R.State, r': R.State, id: nat, k: nat, st: R.StreamId)
    requires StreamsInv(r) && R.LooksUp(r, r', id) && RegistrySockets.IsClosing(r', k, st)
    ensures RegistrySockets.IsClosing(r, k, st) || (k == id && Registered(r, st)
        && r.portOf[st] == r.processes[id].delete.port)
  {}

  lemma LooksUpKeepsClosers(s: State, s': State, id: nat)
    requires StreamsInv(s.registry) && RequestsInv(s) && OwnersInv(s) && GoneInv(s) && ClaimsInv(s) && ClosersInv(s)
    requires R.LooksUp(s.registry, s'.registry, id) && OnlyServer(s, s') && s'.disturbed == s.disturbed
    ensures ClosersInv(s')
  {
    forall c, k | c in s'.owner && RegistrySockets.IsClosing(s'.registry, k, s'.owner[c])
        && s'.owner[c] !in s'.disturbed
      ensures k in s'.askers && s'.askers[k] == c
    {
      LookUpClosesFound(s.registry, s'.registry, id, k, s.owner[c]);
      if !RegistrySockets.IsClosing(s.registry, k, s.owner[c]) {
        FoundIsOwn(s, id, c);
      }
    }
  }

  lemma LooksUpKeepsFull(s: State, s': State, id: nat)
    requires FullInv(s) && ServerWorks(s, s', id) && R.LooksUp(s.registry, s'.registry, id)
    ensures FullInv(s')
  {
    LooksUpKeeps(s, s', id);
    LookUpMakesNoStream(s.registry, s'.registry, id);
    NoneAfflicted(s, s'.registry);
    LooksUpKeepsClaims(s, s', id);
    LooksUpKeepsClosers(s, s', id);
  }

  lemma ServerWorksKeepsFull(s: State, s': State, id: nat)
    requires FullInv(s) && ServerWorks(s, s', id)
    ensures FullInv(s')
  {
    if st, port :| R.Listens(s.registry, s'.registry, id, st, port) {
      ListensKeepsFull(s, s', id, st, port);
    } else if R.Inserts(s.registry, s'.registry, id) {
      InsertsKeepsFull(s, s', id);
    } else if R.LooksUp(s.registry, s'.registry, id) {
      LooksUpKeepsFull(s, s', id);
    } else {
      QuietWorkKeepsFull(s, s', id);
    }
  }

  // ---- every step, every run ----

  lemma AnswerKeepsFull(ws: Worlds, codec: T.Codec, s: State, s': State, c: ConnId, id: nat, t: T.State)
    requires ConnsInv(ws, codec, s) && FullInv(s)
    requires PostAnswered(ws, s, s', c, id, t) || DeleteAnswered(s, s', c, id, t)
    ensures ConnsInv(ws, codec, s') && FullInv(s')
  {
    AnswersKeepConns(ws, codec, s, s', c, t);
    if PostAnswered(ws, s, s', c, id, t) {
      PostAnsweredKeepsFull(ws, s, s', c, id, t);
    } else {
      RefusedKeepsFull(s, s', c, id, t);
    }
  }

  lemma InternalKeepsFull(ws: Worlds, codec: T.Codec, s: State, s': State, c: ConnId, t: T.State)
    requires ConnsInv(ws, codec, s) && FullInv(s) && Internal(ws, codec, s, s', c, t)
    ensures ConnsInv(ws, codec, s') && FullInv(s')
  {
    InternalKeepsConns(ws, codec, s, s', c, t);
    MovedKeepsFull(s, s', c, t);
  }

  ghost predicate OutsideStep(s: State, s': State) {
    || (exists c, id :: PostSent(s, s', c, id))
    || (exists c, id :: DeleteSent(s, s', c, id))
    || (exists id :: ServerWorks(s, s', id))
    || (exists st :: ReaderFails(s, s', st))
    || (exists id, want :: OtherCreates(s, s', id, want))
    || (exists id :: OtherEnds(s, s', id))
  }

  lemma OutsideKeepsFull(s: State, s': State)
    requires FullInv(s) && OutsideStep(s, s')
    ensures FullInv(s') && s'.conns == s.conns
  {
    if c, id :| PostSent(s, s', c, id) {
      PostSentKeepsFull(s, s', c, id);
    } else if c, id :| DeleteSent(s, s', c, id) {
      DeleteSentKeepsFull(s, s', c, id);
    } else if id :| ServerWorks(s, s', id) {
      ServerWorksKeepsFull(s, s', id);
    } else if st :| ReaderFails(s, s', st) {
      ReaderFailsKeepsFull(s, s', st);
    } else if id, want :| OtherCreates(s, s', id, want) {
      OtherCreatesKeepsFull(s, s', id, want);
    } else {
      var id :| OtherEnds(s, s', id);
      OtherEndsKeepsFull(s, s', id);
    }
  }

  lemma StepKeepsInv(ws: Worlds, codec: T.Codec, s: State, s': State)
    requires ConnsInv(ws, codec, s) && FullInv(s) && Step(ws, codec, s, s')
    ensures ConnsInv(ws, codec, s') && FullInv(s')
  {
    if c :| Connects(s, s', c) {
      ConnectsKeepsConns(ws, codec, s, s', c);
      ConnectsKeepsFull(s, s', c);
    } else if c, t :| Internal(ws, codec, s, s', c, t) {
      InternalKeepsFull(ws, codec, s, s', c, t);
    } else if c, id, t :| PostAnswered(ws, s, s', c, id, t) {
      AnswerKeepsFull(ws, codec, s, s', c, id, t);
    } else if c, id, t :| DeleteAnswered(s, s', c, id, t) {
      AnswerKeepsFull(ws, codec, s, s', c, id, t);
    } else {
      OutsideKeepsFull(s, s');
    }
  }

  lemma {:induction false} RunKeepsInv(ws: Worlds, codec: T.Codec, run: seq<State>)
    requires IsRun(ws, codec, run)
    ensures ConnsInv(ws, codec, run[|run| - 1]) && FullInv(run[|run| - 1])
  {
    if |run| > 1 {
      var front := run[..|run| - 1];
      assert IsRun(ws, codec, front);
      RunKeepsInv(ws, codec, front);
      assert Step(ws, codec, run[|run| - 2], run[|run| - 2 + 1]);
      StepKeepsInv(ws, codec, run[|run| - 2], run[|run| - 1]);
    }
  }

  lemma ReachableInv(ws: Worlds, codec: T.Codec, s: State)
    requires Reachable(ws, codec, s)
    ensures ConnsInv(ws, codec, s) && FullInv(s)
  {
    var run :| IsRun(ws, codec, run) && run[|run| - 1] == s;
    RunKeepsInv(ws, codec, run);
  }

  // ---- the registry by itself ----

  lemma OutsideMovesRegistry(s: State, s': State)
    requires OutsideStep(s, s') && !s.registry.panicked
    ensures R.Step(s.registry, s'.registry)
  {}

  lemma StepMovesRegistry(ws: Worlds, codec: T.Codec, s: State, s': State)
    requires Step(ws, codec, s, s')
    ensures s'.registry == s.registry || R.Step(s.registry, s'.registry)
  {
    if c :| Connects(s, s', c) {
    } else if c, t :| Internal(ws, codec, s, s', c, t) {
    } else if c, id, t :| PostAnswered(ws, s, s', c, id, t) {
    } else if c, id, t :| DeleteAnswered(s, s', c, id, t) {
    } else {
      OutsideMovesRegistry(s, s');
    }
  }

  /** What the connections and the others do to the registry is one of its own runs. */
  lemma {:induction false} RunMovesRegistry(ws: Worlds, codec: T.Codec, run: seq<State>)
    requires IsRun(ws, codec, run)
    ensures R.Reachable(run[|run| - 1].registry)
  {
    if |run| == 1 {
      assert R.IsRun([R.INITIAL]);
    } else {
      var front := run[..|run| - 1];
      assert IsRun(ws, codec, front);
      RunMovesRegistry(ws, codec, front);
      assert Step(ws, codec, run[|run| - 2], run[|run| - 2 + 1]);
      StepMovesRegistry(ws, codec, run[|run| - 2], run[|run| - 1]);
      RegistryMoves(run[|run| - 2].registry, run[|run| - 1].registry);
    }
  }

  lemma RegistryMoves(r: R.State, r': R.State)
    requires R.Reachable(r) && (r' == r || R.Step(r, r'))
    ensures R.Reachable(r')
  {
    if r' != r {
      var run :| R.IsRun(run) && run[|run| - 1] == r;
      var longer := RegistryTheorems.RunExtends(run, r');
    }
  }

  lemma ReachableRegistry(ws: Worlds, codec: T.Codec, s: State)
    requires Reachable(ws, codec, s)
    ensures R.Reachable(s.registry)
  {
    var run :| IsRun(ws, codec, run) && run[|run| - 1] == s;
    RunMovesRegistry(ws, codec, run);
  }

  // ---- disturbance and its cause ----

  /** A reader failed on a stream with the same port. */
  ghost predicate CausedBy(s: State, st: R.StreamId, f: R.StreamId) {
    f in s.registry.failedReaders && SamePort(s.registry, st, f)
  }

  ghost predicate Caused(s: State) {
    forall st <- s.disturbed :: exists f :: CausedBy(s, st, f)
  }

  predicate Remembers(r: R.State, r': R.State) {
    r.failedReaders <= r'.failedReaders && forall st <- r.portOf :: st in r'.portOf && r'.portOf[st] == r.portOf[st]
  }

  lemma MakingRemembers(r: R.State, r': R.State, id: nat)
    requires || (exists st, port :: R.Listens(r, r', id, st, port)) || R.ListenFails(r, r', id)
             || R.TracksMade(r, r', id) || R.TracksFail(r, r', id) || R.Inserts(r, r', id)
    ensures Remembers(r, r')
  {}

  lemma ClosingRemembers(r: R.State, r': R.State, id: nat)
    requires R.LooksUp(r, r', id) || R.ClosesConn(r, r', id) || R.TestsHub(r, r', id) || R.ClosesHub(r, r', id)
    ensures Remembers(r, r')
  {}

  lemma RegistryRemembers(r: R.State, r': R.State)
    requires R.Step(r, r')
    ensures Remembers(r, r')
  {
    if id :| R.ProcessStep(r, r', id) {
      if R.LooksUp(r, r', id) || R.ClosesConn(r, r', id) || R.TestsHub(r, r', id) || R.ClosesHub(r, r', id) {
        ClosingRemembers(r, r', id);
      } else {
        MakingRemembers(r, r', id);
      }
    }
  }

  lemma StaysCaused(s: State, s': State, st: R.StreamId)
    requires s'.registry == s.registry || R.Step(s.registry, s'.registry)
    requires exists f :: CausedBy(s, st, f)
    ensures exists f :: CausedBy(s', st, f)
  {
    var f :| CausedBy(s, st, f);
    if s'.registry != s.registry {
      RegistryRemembers(s.registry, s'.registry);
    }
    assert CausedBy(s', st, f);
  }

  lemma AfflictedIsCaused(s: State, s': State, st: R.StreamId)
    requires Caused(s) && R.Step(s.registry, s'.registry) && st in Afflicted(s, s'.registry)
    ensures exists f :: CausedBy(s', st, f)
  {
    var x :| x in s.disturbed && Claimed(s, x) && x in s.registry.portOf
        && s.registry.portOf[x] == s'.registry.portOf[st];
    var f :| CausedBy(s, x, f);
    RegistryRemembers(s.registry, s'.registry);
    assert CausedBy(s', st, f);
  }

  lemma OutsideKeepsCaused(s: State, s': State)
    requires Caused(s) && OutsideStep(s, s') && !s.registry.panicked
    ensures Caused(s')
  {
    OutsideMovesRegistry(s, s');
    if id :| ServerWorks(s, s', id) {
      forall st <- s'.disturbed ensures exists f :: CausedBy(s', st, f) {
        if st in s.disturbed {
          StaysCaused(s, s', st);
        } else {
          AfflictedIsCaused(s, s', st);
        }
      }
    } else if x :| ReaderFails(s, s', x) {
      assert CausedBy(s', x, x);
      forall st <- s'.disturbed ensures exists f :: CausedBy(s', st, f) {
        if st != x {
          StaysCaused(s, s', st);
        }
      }
    } else {
      forall st <- s'.disturbed ensures exists f :: CausedBy(s', st, f) {
        StaysCaused(s, s', st);
      }
    }
  }

  lemma StepKeepsCaused(ws: Worlds, codec: T.Codec, s: State, s': State)
    requires Caused(s) && Step(ws, codec, s, s')
    ensures Caused(s')
  {
    if OutsideStep(s, s') {
      OutsideKeepsCaused(s, s');
    } else {
      StepMovesRegistry(ws, codec, s, s');
      forall st <- s'.disturbed ensures exists f :: CausedBy(s', st, f) {
        StaysCaused(s, s', st);
      }
    }
  }

  lemma {:induction false} RunKeepsCaused(ws: Worlds, codec: T.Codec, run: seq<State>)
    requires IsRun(ws, codec, run)
    ensures Caused(run[|run| - 1])
  {
    if |run| > 1 {
      var front := run[..|run| - 1];
      assert IsRun(ws, codec, front);
      RunKeepsCaused(ws, codec, front);
      assert Step(ws, codec, run[|run| - 2], run[|run| - 2 + 1]);
      StepKeepsCaused(ws, codec, run[|run| - 2], run[|run| - 1]);
    }
  }

  /** Where no reader ever failed on a port, no stream with that port is disturbed. */
  lemma DisturbanceHasCause(ws: Worlds, codec: T.Codec, s: State, st: R.StreamId)
    requires Reachable(ws, codec, s) && st in s.disturbed
    ensures exists f :: f in s.registry.failedReaders && SamePort(s.registry, st, f)
  {
    var run :| IsRun(ws, codec, run) && run[|run| - 1] == s;
    RunKeepsCaused(ws, codec, run);
    var f :| CausedBy(s, st, f);
  }

  // ---- what it means for the connections ----

  /** The connection was given a port and its command task has not got round to freeing it. */
  predicate Streaming(t: T.State) {
    t.conn.rtpPort.Some? && !t.command.Releasing? && !t.command.CommandReturned?
  }

  lemma StreamingHolds(s: State, c: ConnId)
    requires RequestsInv(s) && OwnersInv(s) && c in s.conns && Streaming(s.conns[c])
    ensures Keeps(s, c, s.owner[c]) && Claimed(s, s.owner[c])
  {
    assert Holds(s, c);
    assert Keeps(s, c, s.owner[c]);
  }

  /**
    A streaming connection's port is registered to the stream created for it, whose socket is the one
    bound to that port, unless that stream is disturbed.
   */
  lemma PortServesItsConnection(ws: Worlds, codec: T.Codec, s: State, c: ConnId)
    requires Reachable(ws, codec, s) && c in s.conns && Streaming(s.conns[c])
    ensures c in s.owner
    ensures var port, r := s.conns[c].conn.rtpPort.value, s.registry;
            s.owner[c] !in s.disturbed ==>
              && port in r.streams && r.streams[port] == s.owner[c]
              && port in r.bound && r.bound[port] == s.owner[c]
  {
    ReachableInv(ws, codec, s);
    StreamingHolds(s, c);
  }

  lemma StreamingAlone(s: State, a: ConnId, b: ConnId)
    requires RequestsInv(s) && OwnersInv(s) && ClaimsInv(s)
    requires a in s.conns && b in s.conns && a != b && Streaming(s.conns[a]) && Streaming(s.conns[b])
    requires s.owner[a] !in s.disturbed
    ensures s.conns[a].conn.rtpPort != s.conns[b].conn.rtpPort
  {
    StreamingHolds(s, a);
    StreamingHolds(s, b);
    assert !SamePort(s.registry, s.owner[a], s.owner[b]);
  }

  /** Two connections are never streaming to the same port, unless both streams are disturbed. */
  lemma DistinctPorts(ws: Worlds, codec: T.Codec, s: State, a: ConnId, b: ConnId)
    requires Reachable(ws, codec, s) && a in s.conns && b in s.conns && a != b
    requires Streaming(s.conns[a]) && Streaming(s.conns[b])
    ensures a in s.owner && b in s.owner
    ensures s.conns[a].conn.rtpPort == s.conns[b].conn.rtpPort ==>
        s.owner[a] in s.disturbed && s.owner[b] in s.disturbed
  {
    ReachableInv(ws, codec, s);
    if s.owner[a] !in s.disturbed {
      StreamingAlone(s, a, b);
    }
    if s.owner[b] !in s.disturbed {
      StreamingAlone(s, b, a);
    }
  }

  lemma AskerFindsOwnStream(s: State, s': State, id: nat)
    requires LinkInv(s) && ClaimsInv(s) && R.LooksUp(s.registry, s'.registry, id) && OnlyServer(s, s')
    ensures id in s.askers && s.askers[id] in s.owner && s.askers[id] in s.conns
    ensures var port, c := s.registry.processes[id].delete.port, s.askers[id];
            && s.conns[c].conn.rtpPort == Some(port) && !Registered(s'.registry, s.owner[c])
            && (s.owner[c] !in s.disturbed ==> port in s.registry.streams && s.registry.streams[port] == s.owner[c])
  {
    AskerHolds(s, id);
    assert Keeps(s, s.askers[id], s.owner[s.askers[id]]);
    LookUpTakesOne(s.registry, s'.registry, id, s.owner[s.askers[id]]);
  }

  lemma StreamingIsRegistered(s: State, c: ConnId)
    requires RequestsInv(s) && OwnersInv(s) && ClaimsInv(s) && c in s.conns && Streaming(s.conns[c])
    ensures c in s.owner && (s.owner[c] !in s.disturbed ==> Registered(s.registry, s.owner[c]))
  {
    StreamingHolds(s, c);
  }

  /** A delete request finds the stream of the connection it was sent for, and takes no streaming connection's
      away, as far as the streams are not disturbed. */
  lemma FreeRemovesOwnStream(ws: Worlds, codec: T.Codec, s: State, s': State, id: nat)
    requires Reachable(ws, codec, s) && ServerWorks(s, s', id) && R.LooksUp(s.registry, s'.registry, id)
    ensures id in s.askers && s.askers[id] in s.owner && s.askers[id] in s.conns
    ensures var port, c := s.registry.processes[id].delete.port, s.askers[id];
            && s.conns[c].conn.rtpPort == Some(port) && !Registered(s'.registry, s.owner[c])
            && (s.owner[c] !in s.disturbed ==> port in s.registry.streams && s.registry.streams[port] == s.owner[c])
    ensures forall c | c in s.conns && c != s.askers[id] && Streaming(s.conns[c]) ::
              c in s.owner && (s.owner[c] !in s.disturbed ==> Registered(s'.registry, s.owner[c]))
  {
    ReachableInv(ws, codec, s);
    AskerFindsOwnStream(s, s', id);
    LooksUpKeepsFull(s, s', id);
    NoneAfflicted(s, s'.registry);
    forall c | c in s.conns && c != s.askers[id] && Streaming(s.conns[c])
      ensures c in s.owner && (s.owner[c] !in s.disturbed ==> Registered(s'.registry, s.owner[c]))
    {
      StreamingIsRegistered(s', c);
    }
  }

  lemma ReturnedIsClosed(s: State, c: ConnId)
    requires RequestsInv(s) && OwnersInv(s) && GoneInv(s) && ClosersInv(s) && RegistrySockets.Sockets(s.registry)
    requires c in s.conns && c in s.owner && s.conns[c].command.CommandReturned?
    ensures !Registered(s.registry, s.owner[c])
    ensures HasSocket(s.registry, s.owner[c]) ==>
      s.owner[c] in s.disturbed && exists id :: RegistrySockets.IsClosing(s.registry, id, s.owner[c])
  {
    if HasSocket(s.registry, s.owner[c]) {
      assert RegistrySockets.AnsweredFor(s.registry, s.owner[c]);
    }
  }

  /**
    Once a connection's command task is through, its port was freed once, the registry no longer has its stream,
    and the stream's socket is closed: only of a disturbed stream may another connection's delete still have to
    close it.
   */
  lemma PortGivenBack(ws: Worlds, codec: T.Codec, s: State, c: ConnId)
    requires Reachable(ws, codec, s) && c in s.conns && s.conns[c].command.CommandReturned?
    ensures s.conns[c].freed == s.conns[c].leased
    ensures c in s.owner <==> s.conns[c].leased != []
    ensures c in s.owner ==> s.owner[c] in s.registry.inserted && !Registered(s.registry, s.owner[c])
    ensures c in s.owner && HasSocket(s.registry, s.owner[c]) ==>
      s.owner[c] in s.disturbed && exists id :: RegistrySockets.IsClosing(s.registry, id, s.owner[c])
  {
    ReachableInv(ws, codec, s);
    ReachableRegistry(ws, codec, s);
    RegistrySockets.SocketsAnsweredFor(s.registry);
    if c in s.owner {
      ReturnedIsClosed(s, c);
    }
  }
}

/**
  The hub's event loop as it runs between its selects, on the clients themselves:
  what every branch of Run does to the map, to the clients' channels and to the
  announcements it spawns.
 */
module HubLoop {
  import opened AtomicHub

  class Client {
    var open: bool              // the Send channel
    var connected: bool         // the websocket connection
    var received: seq<Message>
    var patience: nat           // the messages its write loop takes before it exits

    constructor (patience: nat)
      ensures open && connected && received == [] && this.patience == patience
    {
      open, connected, received, this.patience := true, true, [], patience;
    }

    /** A second close of the channel would panic. */
    method Close()
      requires open
      modifies this`open, this`connected
      ensures !open && !connected
    {
      connected := false;
      open := false;
    }

    /** A send on a closed channel would panic; one to a write loop that has exited would never return. */
    method Send(m: Message) returns (taken: bool)
      requires open
      modifies this`received, this`patience
      ensures taken <==> old(patience) > 0
      ensures received == if taken then old(received) + [m] else old(received)
      ensures patience == if taken then old(patience) - 1 else 0
    {
      taken := patience > 0;
      if taken {
        received, patience := received + [m], patience - 1;
      }
    }
  }

  datatype Event = Register(c: Client) | Unregister(c: Client) | Broadcast(m: Message)

  // ---- what a list of events amounts to ----

  /** The clients named in a list of events. */
  function Named(events: seq<Event>): set<Client> {
    set e | e in events && !e.Broadcast? :: e.c
  }

  function Members(events: seq<Event>): set<Client> {
    if events == [] then {}
    else
      var before := Members(events[..|events| - 1]);
      match events[|events| - 1]
      case Register(c) => before + {c}
      case Unregister(c) => before - {c}
      case Broadcast(_) => before
  }

  function Registered(events: seq<Event>): set<Client> {
    set e | e in events && e.Register? :: e.c
  }

  /** What is broadcast while a client is registered. */
  function Heard(events: seq<Event>, c: Client): seq<Message> {
    if events == [] then []
    else
      var front, e := events[..|events| - 1], events[|events| - 1];
      Heard(front, c) + HeardNow(front, e, c)
  }

  function HeardNow(before: seq<Event>, e: Event, c: Client): seq<Message> {
    HeardOnce(e, Members(before), c)
  }

  function HeardOnce(e: Event, members: set<Client>, c: Client): seq<Message> {
    if e.Broadcast? && c in members then [e.m] else []
  }

  /** A client as a run of the loop finds it. */
  datatype Start = Start(received: seq<Message>, open: bool, connected: bool, patience: nat)

  /** The event is a broadcast, and some member has already heard all that its write loop takes. */
  ghost predicate Stalls(start: map<Client, Start>, before: seq<Event>, e: Event) {
    e.Broadcast? && exists c :: c in Members(before) && c in start && start[c].patience == |Heard(before, c)|
  }

  /** The clients that were unregistered while they were registered. */
  function Removed(events: seq<Event>): set<Client> {
    if events == [] then {}
    else
      var front, e := events[..|events| - 1], events[|events| - 1];
      Removed(front) + RemovedNow(front, e)
  }

  function RemovedNow(before: seq<Event>, e: Event): set<Client> {
    if e.Unregister? && e.c in Members(before) then {e.c} else {}
  }

  /** The client count after every event that changed the map. */
  function Counts(events: seq<Event>): seq<nat> {
    if events == [] then []
    else
      var front, e := events[..|events| - 1], events[|events| - 1];
      Counts(front) + if e.Register? || (e.Unregister? && e.c in Members(front)) then [|Members(events)|] else []
  }

  /** No client is registered twice. */
  ghost predicate RegisteredOnce(events: seq<Event>) {
    if events == [] then true
    else
      var front, e := events[..|events| - 1], events[|events| - 1];
      RegisteredOnce(front) && (e.Register? ==> e.c !in Registered(front))
  }

  /** None of the first `n` events stalls the loop. */
  ghost predicate Flows(start: map<Client, Start>, events: seq<Event>, n: nat)
    requires n <= |events|
  {
    forall i :: 0 <= i < n ==> !Stalls(start, events[..i], events[i])
  }

  lemma FlowsOn(start: map<Client, Start>, events: seq<Event>, n: nat)
    requires n < |events| && Flows(start, events, n) && !Stalls(start, events[..n], events[n])
    ensures Flows(start, events, n + 1)
  {}

  lemma Snoc(events: seq<Event>, i: nat)
    requires i < |events|
    ensures events[..i + 1] == events[..i] + [events[i]] && events[..i + 1][..i] == events[..i]
    ensures Registered(events[..i + 1]) == Registered(events[..i]) + if events[i].Register? then {events[i].c} else {}
    ensures Registered(events[..i + 1]) <= Registered(events)
  {
    var before, after, e := events[..i], events[..i + 1], events[i];
    assert forall x <- after :: x in before || x == e;
    assert forall x <- before :: x in after;
    assert forall x <- after :: x in events;
    assert after[i] == e && e in after;
  }

  lemma {:induction false} RegistersFresh(events: seq<Event>, i: nat)
    requires RegisteredOnce(events) && i < |events|
    ensures events[i].Register? ==> events[i].c !in Registered(events[..i])
  {
    var front := events[..|events| - 1];
    if i < |front| {
      RegistersFresh(front, i);
      assert front[..i] == events[..i];
    }
  }

  /** A client that registered is still registered or has been removed. */
  lemma {:induction false} RegisteredSplit(events: seq<Event>, i: nat)
    requires RegisteredOnce(events) && i <= |events|
    ensures Members(events[..i]) + Removed(events[..i]) == Registered(events[..i])
    ensures Members(events[..i]) !! Removed(events[..i])
  {
    if i > 0 {
      RegisteredSplit(events, i - 1);
      Snoc(events, i - 1);
      if events[i - 1].Register? {
        RegistersFresh(events, i - 1);
      }
    }
  }

  lemma EventEffect(before: seq<Event>, e: Event)
    ensures var after := before + [e];
      && Removed(after) == Removed(before) + RemovedNow(before, e)
      && (forall c :: Heard(after, c) == Heard(before, c) + HeardNow(before, e, c))
      && Members(after) == (if e.Register? then Members(before) + {e.c}
                            else if e.Unregister? then Members(before) - {e.c} else Members(before))
      && Counts(after) == Counts(before)
         + if e.Register? || (e.Unregister? && e.c in Members(before)) then [|Members(after)|] else []
  {
    assert (before + [e])[..|before|] == before;
  }

  /** What the loop needs to know before its next event. */
  lemma BeforeEvent(events: seq<Event>, i: nat)
    requires RegisteredOnce(events) && i < |events|
    ensures events[..i + 1] == events[..i] + [events[i]]
    ensures Members(events[..i]) <= Named(events)
    ensures events[i].Broadcast? || events[i].c in Named(events)
    ensures events[i].Register? ==> events[i].c in Registered(events) && events[i].c !in Removed(events[..i])
  {
    Snoc(events, i);
    RegisteredSplit(events, i);
    assert events[i] in events;
    if events[i].Register? {
      RegistersFresh(events, i);
    }
  }

  lemma AfterAll(events: seq<Event>)
    requires RegisteredOnce(events)
    ensures forall c <- Registered(events) :: c in Named(events) && (c in Members(events) || c in Removed(events))
    ensures Members(events) <= Named(events)
  {
    assert events[..|events|] == events;
    RegisteredSplit(events, |events|);
  }

  class Hub {
    var clients: set<Client>
    var done: bool
    var announced: seq<nat>     // the announcements spawned

    constructor ()
      ensures clients == {} && !done && announced == []
    {
      clients, done, announced := {}, false, [];
    }

    ghost predicate Valid()
      reads this, clients
    {
      forall c <- clients :: c.open
    }

    method OnRegister(c: Client)
      requires Valid() && c.open
      modifies this`clients, this`announced
      ensures Valid() && clients == old(clients) + {c}
      ensures announced == old(announced) + [|clients|]
    {
      clients := clients + {c};
      announced := announced + [|clients|];
    }

    method OnUnregister(c: Client)
      requires Valid()
      modifies this`clients, this`announced, c`open, c`connected
      ensures Valid() && clients == old(clients) - {c}
      ensures c.connected == (old(c.connected) && c !in old(clients))
      ensures if c in old(clients) then !c.open && announced == old(announced) + [|clients|]
              else c.open == old(c.open) && announced == old(announced)
    {
      if c in clients {
        clients := clients - {c};
        c.Close();
        announced := announced + [|clients|];
      }
    }

    /** The loop stops at the first client whose write loop has exited, wherever the map's order puts it. */
    method OnBroadcast(m: Message) returns (stuck: Client?)
      requires Valid()
      modifies clients`received, clients`patience
      ensures stuck == null <==> forall c <- clients :: old(c.patience) > 0
      ensures stuck != null ==> stuck in clients && old(stuck.patience) == 0 && stuck.received == old(stuck.received)
      ensures forall c <- clients ::
        || (c.received == old(c.received) + [m] && old(c.patience) > 0 && c.patience == old(c.patience) - 1)
        || (stuck != null && c.received == old(c.received) && c.patience == old(c.patience))
    {
      var todo := clients;
      while todo != {}
        invariant todo <= clients
        invariant forall c <- todo :: c.received == old(c.received) && c.patience == old(c.patience)
        invariant forall c <- clients - todo ::
          c.received == old(c.received) + [m] && old(c.patience) > 0 && c.patience == old(c.patience) - 1
        decreases todo
      {
        var c :| c in todo;
        var taken := c.Send(m);
        if !taken {
          return c;
        }
        todo := todo - {c};
      }
      return null;
    }

    method OnDone()
      requires Valid()
      modifies this`clients, clients`open, clients`connected
      ensures clients == {}
      ensures forall c <- old(clients) :: !c.open && !c.connected
    {
      while clients != {}
        invariant clients <= old(clients) && Valid()
        invariant forall c <- old(clients) :: c !in clients ==> !c.open && !c.connected
        decreases clients
      {
        var c :| c in clients;
        c.Close();
        clients := clients - {c};
      }
    }

    /** Signals Run to stop; signalling twice is harmless when the calls do not overlap. */
    method Close()
      modifies this`done
      ensures done
    {
      if !done {
        done := true;
      }
    }

    /** Since `start`, every client of `all` has heard and suffered what `events` say. */
    ghost predicate Tracks(all: set<Client>, start: map<Client, Start>, events: seq<Event>)
      reads this, all
    {
      && clients == Members(events) && announced == Counts(events)
      && all == start.Keys
      && forall c <- all ::
        && c.received == start[c].received + Heard(events, c)
        && c.patience + |Heard(events, c)| == start[c].patience
        && c.open == (start[c].open && c !in Removed(events))
        && c.connected == (start[c].connected && c !in Removed(events))
    }

    /** The loop is caught in event `e`, which some members may have heard of. */
    ghost predicate Halted(all: set<Client>, start: map<Client, Start>, before: seq<Event>, e: Event)
      reads this, all
    {
      && clients == Members(before) && announced == Counts(before)
      && all == start.Keys
      && forall c <- all ::
        || c.received == start[c].received + Heard(before, c)
        || c.received == start[c].received + (Heard(before, c) + HeardNow(before, e, c))
    }

    /** One event, seen from any set of clients that takes in those concerned. */
    method Handle(e: Event, ghost before: seq<Event>, ghost all: set<Client>, ghost start: map<Client, Start>)
      returns (ok: bool)
      requires Valid() && Tracks(all, start, before)
      requires clients <= all && (e.Broadcast? || e.c in all) && (e.Register? ==> e.c.open)
      modifies this`clients, this`announced, all
      ensures ok <==> !Stalls(start, before, e)
      ensures ok ==> Valid() && Tracks(all, start, before + [e])
      ensures !ok ==> Halted(all, start, before, e)
    {
      ghost var was := map c | c in all :: Start(c.received, c.open, c.connected, c.patience);
      ok := Apply(e, all);
      EventEffect(before, e);
      forall c | c in all
        ensures ok ==> c.received == start[c].received + Heard(before + [e], c)
        ensures ok ==> c.patience + |Heard(before + [e], c)| == start[c].patience
      {
        assert was[c].received + HeardNow(before, e, c) == start[c].received + (Heard(before, c) + HeardNow(before, e,
            c));
      }
    }

    method Apply(e: Event, ghost all: set<Client>) returns (ok: bool)
      requires Valid() && clients <= all && (e.Broadcast? || e.c in all) && (e.Register? ==> e.c.open)
      modifies this`clients, this`announced, all
      ensures Valid()
      ensures ok <==> (e.Broadcast? ==> forall c <- old(clients) :: old(c.patience) > 0)
      ensures clients == if e.Register? then old(clients) + {e.c}
                         else if e.Unregister? then old(clients) - {e.c} else old(clients)
      ensures announced == old(announced)
        + if e.Register? || (e.Unregister? && e.c in old(clients)) then [|clients|] else []
      ensures forall c <- all ::
        && c.open == (old(c.open) && !(e.Unregister? && e.c == c && c in old(clients)))
        && c.connected == (old(c.connected) && !(e.Unregister? && e.c == c && c in old(clients)))
      ensures forall c <- all ::
        || (c.received == old(c.received) + HeardOnce(e, old(clients), c)
            && c.patience + |HeardOnce(e, old(clients), c)| == old(c.patience))
        || (!ok && c.received == old(c.received) && c.patience == old(c.patience))
    {
      ok := true;
      match e
      case Register(c) => OnRegister(c);
      case Unregister(c) => OnUnregister(c);
      case Broadcast(m) =>
        var stuck := OnBroadcast(m);
        ok := stuck == null;
    }

    /**
      The whole loop: events one after the other, then the shutdown, unless a broadcast meets a member whose
      write loop has exited. Every client hears exactly what was broadcast while it was registered; if the loop
      gets to its end all are closed; and the announcements are the counts after the changes.
     */
    method Run(events: seq<Event>) returns (handled: nat)
      requires Valid() && clients == {} && announced == []
      requires RegisteredOnce(events) && forall c <- Registered(events) :: c.open
      modifies this`clients, this`announced, Named(events)
      ensures handled <= |events| && announced == Counts(events[..handled])
      ensures var start := map c | c in Named(events) ::
                Start(old(c.received), old(c.open), old(c.connected), old(c.patience));
        && (forall i :: 0 <= i < handled ==> !Stalls(start, events[..i], events[i]))
        && (handled < |events| ==> Stalls(start, events[..handled], events[handled]))
      ensures handled == |events| ==> clients == {} && forall c <- Registered(events) :: !c.open && !c.connected
      ensures handled == |events| ==> forall c <- Named(events) :: c.received == old(c.received) + Heard(events, c)
      ensures handled < |events| ==> clients == Members(events[..handled]) && forall c <- Named(events) ::
        var heard := Heard(events[..handled], c);
        || c.received == old(c.received) + heard
        || c.received == old(c.received) + (heard + HeardNow(events[..handled], events[handled], c))
    {
      ghost var start := map c | c in Named(events) :: Start(c.received, c.open, c.connected, c.patience);
      handled := HandleAll(events, start);
      if handled == |events| {
        assert events[..handled] == events;
        AfterAll(events);
        assert forall c <- Registered(events) :: c in clients || (!c.open && !c.connected);
        OnDone();
      }
    }

    method HandleNext(events: seq<Event>, n: nat, ghost start: map<Client, Start>) returns (ok: bool)
      requires Valid() && RegisteredOnce(events) && n < |events| && Tracks(Named(events), start, events[..n])
      requires forall c <- Registered(events) :: c in start && start[c].open
      modifies this`clients, this`announced, Named(events)
      ensures ok <==> !Stalls(start, events[..n], events[n])
      ensures ok ==> Valid() && Tracks(Named(events), start, events[..n + 1])
      ensures !ok ==> Halted(Named(events), start, events[..n], events[n])
    {
      BeforeEvent(events, n);
      ok := Handle(events[n], events[..n], Named(events), start);
    }

    method HandleAll(events: seq<Event>, ghost start: map<Client, Start>) returns (handled: nat)
      requires Valid() && RegisteredOnce(events) && Tracks(Named(events), start, [])
      requires forall c <- Registered(events) :: c in start && start[c].open
      modifies this`clients, this`announced, Named(events)
      ensures handled <= |events| && Flows(start, events, handled)
      ensures handled < |events| ==> Stalls(start, events[..handled], events[handled])
      ensures handled == |events| ==> Valid() && Tracks(Named(events), start, events)
      ensures handled < |events| ==> Halted(Named(events), start, events[..handled], events[handled])
    {
      assert events[..0] == [] && events[..|events|] == events;
      handled := 0;
      while handled < |events|
        invariant 0 <= handled <= |events| && Valid()
        invariant Tracks(Named(events), start, events[..handled]) && Flows(start, events, handled)
        decreases |events| - handled
      {
        var ok := HandleNext(events, handled, start);
        if !ok {
          return;
        }
        FlowsOn(start, events, handled);
        handled := handled + 1;
      }
    }
  }
}

/** The hub as its users see it: a set of clients, each with the messages it was sent. */
module AtomicHub {
  import opened Wrappers

  type Client = nat

  datatype Message = Info(connections: nat) | Signal(id: nat)

  type Log = map<Client, seq<Message>>

  function LogOf(log: Log, c: Client): seq<Message> {
    if c in log then log[c] else []
  }

  function Append(log: Log, c: Client, m: Message): Log {
    log[c := LogOf(log, c) + [m]]
  }

  datatype Hub = Hub(members: set<Client>, closed: set<Client>, log: Log)

  const EMPTY: Hub := Hub({}, {}, map[])

  datatype Action =
    | Admit(c: Client)
    | RemoveAndClose(c: Client)
    | BroadcastToAll(m: Message)
    | Direct(c: Client, m: Message)
    | Shutdown

  predicate Enabled(h: Hub, a: Action) {
    match a
    case Admit(c) => c !in h.members && c !in h.closed
    case RemoveAndClose(c) => c in h.members
    case Direct(c, _) => c in h.members
    case _ => true
  }

  function Next(h: Hub, a: Action): Hub {
    match a
    case Admit(c) => h.(members := h.members + {c})
    case RemoveAndClose(c) => h.(members := h.members - {c}, closed := h.closed + {c})
    case BroadcastToAll(m) =>
      h.(log := map c | c in h.log.Keys + h.members :: LogOf(h.log, c) + if c in h.members then [m] else [])
    case Direct(c, m) => h.(log := Append(h.log, c, m))
    case Shutdown => h.(members := {}, closed := h.closed + h.members)
  }

  /** The hub after a list of actions, each of which was enabled when it happened. */
  function Play(actions: seq<Action>): Option<Hub> {
    if actions == [] then Some(EMPTY)
    else match Play(actions[..|actions| - 1])
      case None => None
      case Some(h) => if Enabled(h, actions[|actions| - 1]) then Some(Next(h, actions[|actions| - 1])) else None
  }

  /** The messages broadcast, in order. */
  function Broadcasts(actions: seq<Action>): seq<Message> {
    if actions == [] then []
    else
      var a := actions[|actions| - 1];
      Broadcasts(actions[..|actions| - 1]) + if a.BroadcastToAll? then [a.m] else []
  }

  lemma PlaySnoc(actions: seq<Action>, a: Action)
    requires Play(actions).Some? && Enabled(Play(actions).value, a)
    ensures Play(actions + [a]) == Some(Next(Play(actions).value, a))
    ensures Broadcasts(actions + [a]) == Broadcasts(actions) + if a.BroadcastToAll? then [a.m] else []
  {
    assert (actions + [a])[..|actions|] == actions;
  }

  lemma LogAfterBroadcast(h: Hub, m: Message, c: Client)
    ensures LogOf(Next(h, BroadcastToAll(m)).log, c) == LogOf(h.log, c) + if c in h.members then [m] else []
  {}

  lemma LogAfterAppend(log: Log, c: Client, m: Message, d: Client)
    ensures LogOf(Append(log, c, m), d) == LogOf(log, d) + if d == c then [m] else []
  {}

  /** A client is never both a member and closed, and what it was sent is never taken back. */
  lemma {:induction false} ClosedForGood(actions: seq<Action>, more: seq<Action>, c: Client)
    requires Play(actions).Some? && Play(actions + more).Some?
    ensures var h, h' := Play(actions).value, Play(actions + more).value;
      && h.members !! h.closed && h'.members !! h'.closed
      && h.closed <= h'.closed
      && LogOf(h.log, c) <= LogOf(h'.log, c)
      && (c in h.closed ==> LogOf(h'.log, c) == LogOf(h.log, c))
    decreases |more|, |actions|
  {
    if more == [] {
      assert actions + more == actions;
      if actions != [] {
        assert actions[..|actions| - 1] + [] == actions[..|actions| - 1];
        ClosedForGood(actions[..|actions| - 1], [], c);
      }
    } else {
      var front, a := more[..|more| - 1], more[|more| - 1];
      assert (actions + more)[..|actions + more| - 1] == actions + front;
      ClosedForGood(actions, front, c);
      var h := Play(actions + front).value;
      match a
      case BroadcastToAll(m) => LogAfterBroadcast(h, m, c);
      case Direct(d, m) => LogAfterAppend(h.log, d, m, c);
      case _ =>
    }
  }
}

/**
  The stream server between two requests: sockets, streams and the map of streams by port,
  and what a history of requests leaves registered.

  Requests are handled one at a time here and readers keep reading; RegistryMachine has the interleavings.
 */
module StreamServer {
  import opened Wrappers
  import opened Numerals

  const MAX_PORT: int := 65535

  /** An integer as the query string spells it, of the platform's 64 bits. */
  function Atoi(s: string): Option<int> {
    var digits := if s != "" && (s[0] == '-' || s[0] == '+') then s[1..] else s;
    if !Digits(digits) then None
    else
      var n := if s[0] == '-' then -ParseDecimal(digits) else ParseDecimal(digits);
      if Fits(n) then Some(n) else None
  }

  predicate Fits(n: int) {
    -0x8000_0000_0000_0000 <= n < 0x8000_0000_0000_0000
  }

  /** The text is the number with `z` zeros in front, and with a sign, which a number above zero may have and one
      below zero must. */
  predicate SpellsBehind(text: string, z: nat, n: int) {
    if n < 0 then text == "-" + Padded(z, -n)
    else text == Padded(z, n) || text == "+" + Padded(z, n) || (n == 0 && text == "-" + Padded(z, 0))
  }

  ghost predicate Spells(text: string, n: int) {
    exists z: nat :: SpellsBehind(text, z, n)
  }

  lemma DigitsRead(text: string, digits: string)
    requires Digits(digits) && (text == digits || text == "+" + digits || text == "-" + digits)
    ensures var n := if text[0] == '-' then -ParseDecimal(digits) else ParseDecimal(digits);
      Atoi(text) == if Fits(n) then Some(n) else None
  {
    assert text == digits || text[1..] == digits;
  }

  lemma SpelledIsRead(text: string, z: nat, n: int)
    requires SpellsBehind(text, z, n) && Fits(n)
    ensures Atoi(text) == Some(n)
  {
    var m := if n < 0 then -n else n;
    PaddedReads(z, m);
    DigitsRead(text, Padded(z, m));
  }

  lemma ReadIsSpelled(text: string)
    requires Atoi(text).Some?
    ensures Fits(Atoi(text).value) && Spells(text, Atoi(text).value)
  {
    var digits := if text[0] == '-' || text[0] == '+' then text[1..] else text;
    var z, n := DigitsSpellTheirNumber(digits);
    assert text == digits || text == [text[0]] + digits;
    DigitsRead(text, digits);
    assert SpellsBehind(text, z, Atoi(text).value);
  }

  /** A text is read as a number exactly when it spells the number, and the number fits. */
  lemma AtoiExactly(text: string, n: int)
    ensures Atoi(text) == Some(n) <==> Fits(n) && Spells(text, n)
  {
    if Atoi(text) == Some(n) {
      ReadIsSpelled(text);
    }
    if Fits(n) && Spells(text, n) {
      var z: nat :| SpellsBehind(text, z, n);
      SpelledIsRead(text, z, n);
    }
  }

  /** The numbers of 64 bits that a text spells; there is never more than one. */
  ghost function Numbers(text: string): iset<int> {
    iset n | Fits(n) && Spells(text, n)
  }

  lemma ReadsItsNumbers(text: string)
    ensures Numbers(text) == if Atoi(text).Some? then iset{Atoi(text).value} else iset{}
  {
    forall n ensures n in Numbers(text) <==> Atoi(text) == Some(n) {
      AtoiExactly(text, n);
    }
  }

  /** A request to the stream endpoint, with the text of its port parameter; "" when there is none. */
  datatype Request = Post(port: string) | Delete(port: string) | OtherMethod

  datatype Response = Created(port: int) | ServerError | NoContent | BadRequest | NotAllowed

  /** A request, the port the system would choose for it, and whether its tracks can be made. */
  datatype Call = Call(request: Request, choice: int, tracks: bool)

  /** The port a socket gets: 0 asks for the system's choice. */
  function PortFor(bound: set<int>, want: int, choice: int): Option<int> {
    var port := if want == 0 then choice else want;
    if 0 < port <= MAX_PORT && port !in bound then Some(port) else None
  }

  /** The port a create request asks for: anything unreadable counts as 0. */
  function Wanted(read: Option<int>): int {
    match read
    case Some(n) => n
    case None => 0
  }

  predicate Available(bound: set<int>, port: int) {
    1 <= port <= 65535 && port !in bound
  }

  /** The answer to a create request, by the numbers its parameter spells: a number other than 0 is the one port
      it can get; without one the choice is the system's. */
  ghost predicate CreateAnswer(spelled: iset<int>, choice: int, tracks: bool, bound: set<int>, response: Response) {
    && (forall n <- spelled :: n != 0 ==>
          response == if Available(bound, n) && tracks then Created(n) else ServerError)
    && ((forall n <- spelled :: n == 0) ==>
          response == if Available(bound, choice) && tracks then Created(choice) else ServerError)
  }

  ghost predicate Answers(call: Call, bound: set<int>, response: Response) {
    match call.request
    case Post(text) => CreateAnswer(Numbers(text), call.choice, call.tracks, bound, response)
    case Delete(text) => response == if Numbers(text) != iset{} then NoContent else BadRequest
    case OtherMethod => response == NotAllowed
  }

  function AnswerTo(call: Call, bound: set<int>): Response {
    match call.request
    case Post(text) => AnswerToCreate(Atoi(text), call.choice, call.tracks, bound)
    case Delete(text) => if Atoi(text).Some? then NoContent else BadRequest
    case OtherMethod => NotAllowed
  }

  function AnswerToCreate(read: Option<int>, choice: int, tracks: bool, bound: set<int>): Response {
    var port := PortFor(bound, Wanted(read), choice);
    if port.Some? && tracks then Created(port.value) else ServerError
  }

  lemma CreateExactly(read: Option<int>, spelled: iset<int>,
                      choice: int, tracks: bool, bound: set<int>, response: Response)
    requires spelled == if read.Some? then iset{read.value} else iset{}
    ensures CreateAnswer(spelled, choice, tracks, bound, response)
            <==> response == AnswerToCreate(read, choice, tracks, bound)
  {}

  /** A call is answered by what its parameter spells, and in no other way. */
  lemma AnswersExactly(call: Call, bound: set<int>, response: Response)
    ensures Answers(call, bound, response) <==> response == AnswerTo(call, bound)
  {
    if !call.request.OtherMethod? {
      var text := call.request.port;
      ReadsItsNumbers(text);
      CreateExactly(Atoi(text), Numbers(text), call.choice, call.tracks, bound, response);
    }
  }

  /** A create request for a plain number of a port gets that port or none. */
  lemma PlainPortAnswer(call: Call, port: nat, bound: set<int>, response: Response)
    requires 1 <= port <= 65535 && call.request == Post(Decimal(port)) && Answers(call, bound, response)
    ensures response == if port !in bound && call.tracks then Created(port) else ServerError
  {
    assert Decimal(port) == Padded(0, port);
    assert SpellsBehind(Decimal(port), 0, port);
    assert port in Numbers(Decimal(port));
  }

  // ---- what a history amounts to ----

  datatype Exchange = Exchange(request: Request, response: Response)

  predicate Registers(e: Exchange, port: int) {
    e.request.Post? && e.response == Created(port)
  }

  predicate Removes(e: Exchange, port: int) {
    e.request.Delete? && Atoi(e.request.port) == Some(port)
  }

  /** The ports registered after a history that began with those of `start`. */
  function Live(start: set<int>, history: seq<Exchange>): set<int> {
    if history == [] then start
    else
      var before, e := Live(start, history[..|history| - 1]), history[|history| - 1];
      match e.request
      case Post(_) => if e.response.Created? then before + {e.response.port} else before
      case Delete(text) => if Atoi(text).Some? then before - {Atoi(text).value} else before
      case OtherMethod => before
  }

  /** Since exchange `k` nobody removed the port. */
  ghost predicate KeptSince(history: seq<Exchange>, k: nat, port: int) {
    forall j :: k <= j < |history| ==> !Removes(history[j], port)
  }

  ghost predicate GrantedAndKept(history: seq<Exchange>, port: int) {
    exists k :: 0 <= k < |history| && Registers(history[k], port) && KeptSince(history, k + 1, port)
  }

  lemma KeptSnoc(history: seq<Exchange>, e: Exchange, k: nat, port: int)
    requires k <= |history|
    ensures KeptSince(history + [e], k, port) <==> KeptSince(history, k, port) && !Removes(e, port)
  {
    var longer := history + [e];
    assert longer[|history|] == e;
    assert forall j :: 0 <= j < |history| ==> longer[j] == history[j];
  }

  lemma GrantedSnoc(history: seq<Exchange>, e: Exchange, port: int)
    ensures GrantedAndKept(history + [e], port) <==>
              Registers(e, port) || (GrantedAndKept(history, port) && !Removes(e, port))
  {
    var longer := history + [e];
    assert longer[|history|] == e;
    if k :| 0 <= k < |longer| && Registers(longer[k], port) && KeptSince(longer, k + 1, port) {
      if k < |history| {
        KeptSnoc(history, e, k + 1, port);
        assert Registers(history[k], port);
      }
    }
    if k :| 0 <= k < |history| && Registers(history[k], port) && KeptSince(history, k + 1, port) {
      KeptSnoc(history, e, k + 1, port);
      assert Registers(longer[k], port);
    }
  }

  lemma LiveLast(start: set<int>, history: seq<Exchange>, e: Exchange, port: int)
    ensures port in Live(start, history + [e]) <==>
              Registers(e, port) || (port in Live(start, history) && !Removes(e, port))
  {
    var longer := history + [e];
    assert longer[..|longer| - 1] == history && longer[|longer| - 1] == e;
  }

  /** A port is registered exactly when it was there or was created, and has not been deleted since. */
  lemma {:induction false} LiveExactly(start: set<int>, history: seq<Exchange>, port: int)
    ensures port in Live(start, history) <==>
              GrantedAndKept(history, port) || (port in start && KeptSince(history, 0, port))
  {
    if history != [] {
      var front, e := history[..|history| - 1], history[|history| - 1];
      assert history == front + [e];
      LiveExactly(start, front, port);
      LiveLast(start, front, e, port);
      GrantedSnoc(front, e, port);
      KeptSnoc(front, e, 0, port);
    }
  }

  lemma LiveSnoc(start: set<int>, history: seq<Exchange>, e: Exchange)
    ensures Live(start, history + [e]) == Live(Live(start, history), [e])
  {
    var longer := history + [e];
    assert longer[..|longer| - 1] == history && longer[|longer| - 1] == e;
    assert [e][..0] == [];
  }

  /** Each call so far was answered by the ports registered at the time and the ports of others. */
  ghost predicate Honest(start: set<int>, foreign: set<int>, calls: seq<Call>, history: seq<Exchange>) {
    |history| <= |calls| && forall i :: 0 <= i < |history| ==>
      && history[i].request == calls[i].request
      && Answers(calls[i], Live(start, history[..i]) + foreign, history[i].response)
  }

  lemma HonestSnoc(start: set<int>, foreign: set<int>, calls: seq<Call>, history: seq<Exchange>, response: Response)
    requires Honest(start, foreign, calls, history) && |history| < |calls|
    requires Answers(calls[|history|], Live(start, history) + foreign, response)
    ensures Honest(start, foreign, calls, history + [Exchange(calls[|history|].request, response)])
  {
    var e := Exchange(calls[|history|].request, response);
    forall i | 0 <= i < |history| + 1
      ensures (history + [e])[i].request == calls[i].request
      ensures Answers(calls[i], Live(start, (history + [e])[..i]) + foreign, (history + [e])[i].response)
    {
      assert (history + [e])[..i] == history[..i];
      if i == |history| {
        assert history[..i] == history;
      }
    }
  }

  /** A port is given out only while nobody has it. */
  lemma GivenIsFree(call: Call, bound: set<int>, response: Response)
    requires Answers(call, bound, response) && response.Created?
    ensures call.request.Post? && Available(bound, response.port) && call.tracks
  {}

  /** The port that an ingest connection spells in its delete request is the port the server reads. */
  lemma PortReadsBack(port: nat)
    requires port <= MAX_PORT
    ensures Atoi(Decimal(port)) == Some(port)
  {
    DecimalRoundTrip(port);
  }

  // ---- sockets ----

  class UdpConn {
    const port: int
    var open: bool

    constructor (port: int)
      ensures this.port == port && open
    {
      this.port, open := port, true;
    }
  }

  class Network {
    var bound: map<int, UdpConn>

    ghost predicate Valid()
      reads this, bound.Values
    {
      forall p <- bound :: bound[p].port == p && bound[p].open
    }

    method Listen(want: int, choice: int) returns (conn: UdpConn?)
      requires Valid()
      modifies this`bound
      ensures Valid()
      ensures match PortFor(old(bound.Keys), want, choice)
        case Some(port) =>
          conn != null && fresh(conn) && conn.port == port && conn.open && bound == old(bound)[port := conn]
        case None => conn == null && bound == old(bound)
    {
      conn := null;
      var port := if want == 0 then choice else want;
      if 0 < port <= MAX_PORT && port !in bound {
        conn := new UdpConn(port);
        bound := bound[port := conn];
      }
    }

    /** Closing a closed socket does nothing. */
    method Close(conn: UdpConn)
      requires Valid() && (conn.open ==> conn.port in bound && bound[conn.port] == conn)
      modifies this`bound, conn`open
      ensures Valid() && !conn.open
      ensures bound == if old(conn.open) then old(bound) - {conn.port} else old(bound)
    {
      if conn.open {
        bound := bound - {conn.port};
        conn.open := false;
      }
    }
  }

  class Stream {
    const port: int
    const conn: UdpConn
    var hubDone: bool

    constructor (conn: UdpConn)
      ensures this.conn == conn && port == conn.port && !hubDone
    {
      this.conn, port, hubDone := conn, conn.port, false;
    }
  }

  // ---- the server ----

  class Server {
    var streams: map<int, Stream>
    const network: Network

    /** Every stream is registered under its own port, and its socket is the one bound there. */
    ghost predicate Valid()
      reads this, streams.Values, network, network.bound.Values
    {
      && network.Valid()
      && forall p <- streams ::
           && streams[p].port == p && !streams[p].hubDone
           && p in network.bound && network.bound[p] == streams[p].conn
    }

    /** The ports somebody else has bound. */
    ghost function Foreign(): set<int>
      reads this, network
    {
      network.bound.Keys - streams.Keys
    }

    constructor (network: Network)
      requires network.Valid()
      ensures Valid() && streams == map[] && this.network == network
    {
      streams, this.network := map[], network;
    }

    /** A server starts with one stream, and not at all when that cannot be made. */
    static method New(network: Network, rtpPort: int, choice: int, tracks: bool) returns (server: Server?)
      requires network.Valid()
      modifies network`bound
      ensures var port := PortFor(old(network.bound.Keys), rtpPort, choice);
        if port.Some? && tracks
        then server != null && fresh(server) && server.Valid() && server.network == network
             && server.streams.Keys == {port.value} && server.Foreign() == old(network.bound.Keys)
        else server == null && network.bound == old(network.bound)
    {
      server := new Server(network);
      var st := server.CreateStream(rtpPort, choice, tracks);
      if st == null {
        server := null;
      }
    }

    /** The new stream never takes another's place, and a failure leaves no socket behind. */
    method CreateStream(want: int, choice: int, tracks: bool) returns (st: Stream?)
      requires Valid()
      modifies this`streams, network`bound
      ensures Valid() && Foreign() == old(Foreign())
      ensures var port := PortFor(old(network.bound.Keys), want, choice);
        if port.Some? && tracks
        then st != null && fresh(st) && fresh(st.conn) && st.port == port.value && st.port !in old(streams)
             && streams == old(streams)[st.port := st] && network.bound == old(network.bound)[st.port := st.conn]
        else st == null && streams == old(streams) && network.bound == old(network.bound)
    {
      st := null;
      var conn := network.Listen(want, choice);
      if conn == null {
        return;
      }
      if !tracks {
        network.Close(conn);
        return;
      }
      st := new Stream(conn);
      streams := streams[st.port := st];
    }

    /** The stream is out of the map, its socket is closed and its hub told to stop; no other stream is touched. */
    method DeleteStream(port: int)
      requires Valid()
      modifies this`streams, network`bound
      modifies if port in streams then {streams[port], streams[port].conn} else {}
      ensures Valid() && Foreign() == old(Foreign())
      ensures streams == old(streams) - {port}
      ensures port in old(streams) ==>
        var st := old(streams)[port]; !st.conn.open && st.hubDone
      ensures network.bound == if port in old(streams) then old(network.bound) - {port} else old(network.bound)
    {
      if port in streams {
        var st := streams[port];
        streams := streams - {port};
        network.Close(st.conn);
        if !st.hubDone {
          st.hubDone := true;
        }
      }
    }

    method Handle(call: Call) returns (response: Response)
      requires Valid()
      modifies this`streams, network`bound, streams.Values, network.bound.Values
      ensures Valid() && Foreign() == old(Foreign())
      ensures forall st <- streams.Values :: st in old(streams.Values) || fresh(st)
      ensures forall c <- network.bound.Values :: c in old(network.bound.Values) || fresh(c)
      ensures streams.Keys == Live(old(streams.Keys), [Exchange(call.request, response)])
      ensures response == AnswerTo(call, old(network.bound.Keys)) && Answers(call, old(network.bound.Keys), response)
    {
      AnswersExactly(call, network.bound.Keys, AnswerTo(call, network.bound.Keys));
      match call.request
      case Post(text) =>
        var st := CreateStream(Wanted(Atoi(text)), call.choice, call.tracks);
        response := if st == null then ServerError else Created(st.port);
      case Delete(text) =>
        if Atoi(text).None? {
          response := BadRequest;
        } else {
          DeleteStream(Atoi(text).value);
          response := NoContent;
        }
      case OtherMethod =>
        response := NotAllowed;
    }

    /** Handles the next request. */
    method ServeNext(ghost start: set<int>, calls: seq<Call>, history: seq<Exchange>) returns (response: Response)
      requires Valid() && streams.Keys == Live(start, history)
      requires |history| < |calls| && Honest(start, Foreign(), calls, history)
      modifies this`streams, network`bound, streams.Values, network.bound.Values
      ensures Valid() && Foreign() == old(Foreign())
      ensures forall st <- streams.Values :: st in old(streams.Values) || fresh(st)
      ensures forall c <- network.bound.Values :: c in old(network.bound.Values) || fresh(c)
      ensures var longer := history + [Exchange(calls[|history|].request, response)];
        streams.Keys == Live(start, longer) && Honest(start, Foreign(), calls, longer)
    {
      var call := calls[|history|];
      forall p <- streams.Keys ensures p in network.bound {
        assert streams[p].port == p;
      }
      assert streams.Keys <= network.bound.Keys;
      assert network.bound.Keys == streams.Keys + Foreign();
      response := Handle(call);
      HonestSnoc(start, Foreign(), calls, history, response);
      LiveSnoc(start, history, Exchange(call.request, response));
    }

    /** Requests one after the other. What is registered in the end is what the history says, ports of others
        are left alone, and every request is answered by the ports that streams and others have at the time. */
    method Serve(calls: seq<Call>) returns (history: seq<Exchange>)
      requires Valid()
      modifies this`streams, network`bound, streams.Values, network.bound.Values
      ensures Valid() && Foreign() == old(Foreign())
      ensures |history| == |calls| && Honest(old(streams.Keys), Foreign(), calls, history)
      ensures streams.Keys == Live(old(streams.Keys), history)
    {
      history := [];
      while |history| < |calls|
        invariant Valid() && Foreign() == old(Foreign())
        invariant forall st <- streams.Values :: st in old(streams.Values) || fresh(st)
        invariant forall c <- network.bound.Values :: c in old(network.bound.Values) || fresh(c)
        invariant streams.Keys == Live(old(streams.Keys), history)
        invariant Honest(old(streams.Keys), Foreign(), calls, history)
        decreases |calls| - |history|
      {
        var response := ServeNext(old(streams.Keys), calls, history);
        history := history + [Exchange(calls[|history|].request, response)];
      }
    }
  }
}

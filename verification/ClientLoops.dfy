/**
  The two goroutines of a viewer: the read loop, which feeds the peer connection and
  unregisters on its way out, and the write loop, which pumps the Send channel to the websocket.
 */
module ClientLoops {
  import opened Wrappers

  datatype Kind = Candidate | Answer | OtherKind

  type Payload = nat

  /** What a read yields: nothing more, text that is no message, or a message, whose fields may be missing.
      `taken`: whether the payload can be read and the peer connection accepts it. */
  datatype Incoming = ReadError | Garbled | Message(kind: Option<Kind>, payload: Option<Payload>, taken: bool)

  /** The record that every message is read into: fields a message lacks keep their last value. */
  datatype Record = Record(kind: Kind, payload: Payload)

  const NO_PAYLOAD: Payload := 0
  const BLANK: Record := Record(OtherKind, NO_PAYLOAD)

  function Fill(r: Record, m: Incoming): Record
    requires m.Message?
  {
    Record(if m.kind.Some? then m.kind.value else r.kind, if m.payload.Some? then m.payload.value else r.payload)
  }

  // ---- what a list of messages means, by position ----

  function LastKind(ms: seq<Incoming>): Kind {
    if ms == [] then OtherKind
    else
      var m := ms[|ms| - 1];
      if m.Message? && m.kind.Some? then m.kind.value else LastKind(ms[..|ms| - 1])
  }

  function LastPayload(ms: seq<Incoming>): Payload {
    if ms == [] then NO_PAYLOAD
    else
      var m := ms[|ms| - 1];
      if m.Message? && m.payload.Some? then m.payload.value else LastPayload(ms[..|ms| - 1])
  }

  /** The message at the end of the list is dealt with and the loop goes on. */
  predicate Survives(ms: seq<Incoming>)
    requires ms != []
  {
    var m := ms[|ms| - 1];
    m.Message? && (LastKind(ms).OtherKind? || m.taken)
  }

  /** What the peer connection is given for a list of messages that were all dealt with. */
  function Signals(ms: seq<Incoming>): seq<Record> {
    if ms == [] then []
    else
      Signals(ms[..|ms| - 1]) + if LastKind(ms).OtherKind? then [] else [Record(LastKind(ms), LastPayload(ms))]
  }

  lemma FillIsLast(ms: seq<Incoming>, m: Incoming)
    requires m.Message?
    ensures Fill(Record(LastKind(ms), LastPayload(ms)), m) == Record(LastKind(ms + [m]), LastPayload(ms + [m]))
  {
    assert (ms + [m])[..|ms|] == ms;
  }

  datatype Frame = Text(m: nat) | Ping | Close

  datatype Outgoing = Send(m: nat) | Tick | ChannelClosed

  function FrameOf(o: Outgoing): Frame {
    match o
    case Send(m) => Text(m)
    case Tick => Ping
    case ChannelClosed => Close
  }

  function Frames(os: seq<Outgoing>): seq<Frame> {
    seq(|os|, i requires 0 <= i < |os| => FrameOf(os[i]))
  }

  function Texts(frames: seq<Frame>): seq<nat> {
    if frames == [] then []
    else Texts(frames[..|frames| - 1]) + if frames[|frames| - 1].Text? then [frames[|frames| - 1].m] else []
  }

  function Sent(os: seq<Outgoing>): seq<nat> {
    if os == [] then []
    else Sent(os[..|os| - 1]) + if os[|os| - 1].Send? then [os[|os| - 1].m] else []
  }

  /** A viewer that reads the text frames reads what was sent to the client. */
  lemma {:induction false} TextsOfFrames(os: seq<Outgoing>)
    ensures Texts(Frames(os)) == Sent(os)
  {
    if os != [] {
      TextsOfFrames(os[..|os| - 1]);
      assert Frames(os)[..|os| - 1] == Frames(os[..|os| - 1]);
    }
  }

  /** As many pings are written as the ticker ticked. */
  lemma {:induction false} PingsOfFrames(os: seq<Outgoing>)
    ensures multiset(Frames(os))[Ping] == multiset(os)[Tick]
  {
    if os != [] {
      var front, o := os[..|os| - 1], os[|os| - 1];
      PingsOfFrames(front);
      assert os == front + [o] && Frames(os) == Frames(front) + [FrameOf(o)];
    }
  }

  /** A text for a message and nothing else, a ping for every tick, and a close for the closed channel, which
      comes last. */
  ghost predicate Told(frames: seq<Frame>, items: seq<Outgoing>) {
    && |frames| == |items|
    && (forall i :: 0 <= i < |frames| ==> frames[i].Text? ==> items[i] == Send(frames[i].m))
    && (forall i :: 0 <= i < |frames| ==> (frames[i] == Ping <==> items[i] == Tick))
    && (Close in frames <==> items != [] && items[|items| - 1] == ChannelClosed)
    && (forall i :: 0 <= i < |frames| - 1 ==> frames[i] != Close)
    && multiset(frames)[Ping] == multiset(items)[Tick]
  }

  lemma FramesTell(os: seq<Outgoing>)
    requires forall k :: 0 <= k < |os| - 1 ==> !os[k].ChannelClosed?
    ensures Told(Frames(os), os)
  {
    PingsOfFrames(os);
    if os != [] {
      assert Frames(os)[|os| - 1] in Frames(os);
    }
  }

  // ---- the loops ----

  /** A websocket that takes `room` more frames before a write fails. */
  class Websocket {
    var open: bool
    var frames: seq<Frame>
    var room: nat

    constructor (room: nat)
      ensures open && frames == [] && this.room == room
    {
      open, frames, this.room := true, [], room;
    }

    method Write(f: Frame) returns (ok: bool)
      modifies this`frames, this`room
      ensures ok <==> old(room) > 0
      ensures frames == if ok then old(frames) + [f] else old(frames)
      ensures room == if ok then old(room) - 1 else 0
    {
      ok := room > 0;
      if ok {
        frames, room := frames + [f], room - 1;
      }
    }

    method Shut()
      modifies this`open
      ensures !open
    {
      open := false;
    }
  }

  const CAPACITY: nat := 1

  /** What a client sees of its hub: whether it has closed, and its Unregister channel. */
  class HubSide {
    var closed: bool
    var unregister: seq<Client>

    constructor ()
      ensures !closed && unregister == []
    {
      closed, unregister := false, [];
    }

    /** A send on the full channel has to wait. */
    method Unregister(c: Client) returns (ok: bool)
      modifies this`unregister
      ensures ok <==> |old(unregister)| < CAPACITY
      ensures unregister == if ok then old(unregister) + [c] else old(unregister)
    {
      ok := |unregister| < CAPACITY;
      if ok {
        unregister := unregister + [c];
      }
    }
  }

  class Client {
    const conn: Websocket
    const hub: HubSide
    var applied: seq<Record>      // what the peer connection took

    constructor (hub: HubSide, conn: Websocket)
      ensures this.hub == hub && this.conn == conn && applied == []
    {
      this.hub, this.conn, applied := hub, conn, [];
    }

    /** The peer connection is given exactly what the messages before the one that ended the loop
        amount to; then the client unregisters, once, unless the hub has closed, and the connection is shut,
        unless the loop is left waiting at a full channel with the connection open. */
    method ReadLoop(inbox: seq<Incoming>) returns (dealt: nat, waiting: bool)
      modifies this`applied, conn`open, hub`unregister
      ensures dealt <= |inbox| && (dealt < |inbox| ==> !Survives(inbox[..dealt + 1]))
      ensures forall k :: 0 < k <= dealt ==> Survives(inbox[..k])
      ensures applied == old(applied) + Signals(inbox[..dealt])
      ensures waiting <==> !hub.closed && |old(hub.unregister)| >= CAPACITY
      ensures conn.open == (waiting && old(conn.open))
      ensures hub.unregister == old(hub.unregister) + if waiting || hub.closed then [] else [this]
    {
      dealt := 0;
      var record := BLANK;
      while dealt < |inbox|
        invariant dealt <= |inbox| && record == Record(LastKind(inbox[..dealt]), LastPayload(inbox[..dealt]))
        invariant forall k :: 0 < k <= dealt ==> Survives(inbox[..k])
        invariant applied == old(applied) + Signals(inbox[..dealt])
        invariant hub.unregister == old(hub.unregister) && conn.open == old(conn.open)
      {
        var m := inbox[dealt];
        assert inbox[..dealt + 1] == inbox[..dealt] + [m] && inbox[..dealt + 1][..dealt] == inbox[..dealt];
        if !m.Message? {
          break;
        }
        FillIsLast(inbox[..dealt], m);
        record := Fill(record, m);
        if !record.kind.OtherKind? {
          if !m.taken {
            break;
          }
          applied := applied + [record];
        }
        dealt := dealt + 1;
      }
      waiting := false;
      if !hub.closed {
        var ok := hub.Unregister(this);
        waiting := !ok;
      }
      if !waiting {
        conn.Shut();
      }
    }

    /** Everything taken from the channel and the ticker is written in order, but for the last item when its
        write failed; nothing is taken after the channel was closed, and the connection is shut in the end.
        A close frame is written exactly when the closed channel was the last item written, and comes last. */
    method WriteLoop(items: seq<Outgoing>) returns (taken: nat, ok: bool)
      modifies conn
      ensures taken <= |items| && forall k :: 0 <= k < taken - 1 ==> !items[k].ChannelClosed?
      ensures !ok ==> taken > 0
      ensures conn.frames == old(conn.frames) + Frames(items[..if ok then taken else taken - 1])
      ensures Told(conn.frames[|old(conn.frames)|..], items[..if ok then taken else taken - 1])
      ensures ok && taken < |items| ==> taken > 0 && items[taken - 1].ChannelClosed?
      ensures !conn.open
    {
      taken, ok := 0, true;
      assert conn.frames == conn.frames + Frames(items[..0]);
      while taken < |items|
        invariant ok && taken <= |items| && forall k :: 0 <= k < taken ==> !items[k].ChannelClosed?
        invariant conn.frames == old(conn.frames) + Frames(items[..taken])
      {
        assert Frames(items[..taken + 1]) == Frames(items[..taken]) + [FrameOf(items[taken])];
        ok := conn.Write(FrameOf(items[taken]));
        taken := taken + 1;
        if !ok || items[taken - 1].ChannelClosed? {
          break;
        }
      }
      conn.Shut();
      ghost var written := items[..if ok then taken else taken - 1];
      FramesTell(written);
      assert conn.frames[|old(conn.frames)|..] == Frames(written);
    }
  }
}

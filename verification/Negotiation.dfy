/**
  What a connection remembers: after any served list of commands, every field of
  the connection state is the one last negotiated, and the port is the first one granted.
 */
module Negotiation {
  import opened Wrappers
  import opened ConnectionStates
  import opened FtlCodec
  import opened Interpreter

  /** The text attribute a state holds under a protocol key. */
  function Recorded(st: ConnectionState, key: string): Option<string> {
    if key == "ProtocolVersion" then st.protocolVersion
    else if key == "VendorName" then st.vendorName
    else if key == "VendorVersion" then st.vendorVersion
    else if key == "VideoCodec" then st.videoCodec
    else if key == "VideoHeight" then st.videoHeight
    else if key == "VideoWidth" then st.videoWidth
    else if key == "VideoPayloadType" then st.videoPayloadType
    else if key == "VideoIngestSSRC" then st.videoIngestSsrc
    else if key == "AudioCodec" then st.audioCodec
    else if key == "AudioPayloadType" then st.audioPayloadType
    else if key == "AudioIngestSSRC" then st.audioIngestSsrc
    else None
  }

  predicate VendorKey(key: string) {
    key == "ProtocolVersion" || key == "VendorName" || key == "VendorVersion"
  }

  predicate VideoKey(key: string) {
    || key == "VideoCodec" || key == "VideoHeight" || key == "VideoWidth"
    || key == "VideoPayloadType" || key == "VideoIngestSSRC"
  }

  predicate AudioKey(key: string) {
    key == "AudioCodec" || key == "AudioPayloadType" || key == "AudioIngestSSRC"
  }

  predicate TextKey(key: string) {
    VendorKey(key) || VideoKey(key) || AudioKey(key)
  }

  predicate Sets(c: FtlCommand, key: string) {
    c.Attribute? && "key" in c.data && "value" in c.data && c.data["key"] == key
  }

  /** The value of the last attribute sent under a key. */
  function LastValue(cs: seq<FtlCommand>, key: string): Option<string> {
    if cs == [] then None
    else if Sets(cs[|cs| - 1], key) then Some(cs[|cs| - 1].data["value"])
    else LastValue(cs[..|cs| - 1], key)
  }

  /** The key of the last CONNECT. */
  function LastStreamKey(cs: seq<FtlCommand>): Option<string> {
    if cs == [] then None
    else if cs[|cs| - 1].Connect? && "stream_key" in cs[|cs| - 1].data then Some(cs[|cs| - 1].data["stream_key"])
    else LastStreamKey(cs[..|cs| - 1])
  }

  /** The payload drawn for the last HMAC request. */
  function LastPayload(w: World, cs: seq<FtlCommand>): Option<string> {
    if cs == [] then None
    else if cs[|cs| - 1].HMAC? then Some(w.hmac(|cs| - 1))
    else LastPayload(w, cs[..|cs| - 1])
  }

  /** The port granted to the first dot; no other dot asks for one. */
  function FirstPort(w: World, cs: seq<FtlCommand>): Option<nat> {
    if cs == [] then None
    else match FirstPort(w, cs[..|cs| - 1])
      case Some(port) => Some(port)
      case None => if cs[|cs| - 1].Dot? then AllocatePort(w.port(|cs| - 1)) else None
  }

  lemma SettingVendor(st: ConnectionState, key: string, value: string, probe: string)
    requires VendorKey(probe) && SetAttribute(st, key, value).Some?
    ensures Recorded(SetAttribute(st, key, value).value, probe)
            == if probe == key then Some(value) else Recorded(st, probe)
  {}

  lemma SettingVideo(st: ConnectionState, key: string, value: string, probe: string)
    requires VideoKey(probe) && SetAttribute(st, key, value).Some?
    ensures Recorded(SetAttribute(st, key, value).value, probe)
            == if probe == key then Some(value) else Recorded(st, probe)
  {}

  lemma SettingAudio(st: ConnectionState, key: string, value: string, probe: string)
    requires AudioKey(probe) && SetAttribute(st, key, value).Some?
    ensures Recorded(SetAttribute(st, key, value).value, probe)
            == if probe == key then Some(value) else Recorded(st, probe)
  {}

  lemma SettingRecords(st: ConnectionState, key: string, value: string, probe: string)
    requires TextKey(probe) && SetAttribute(st, key, value).Some?
    ensures Recorded(SetAttribute(st, key, value).value, probe)
            == if probe == key then Some(value) else Recorded(st, probe)
  {
    if VendorKey(probe) {
      SettingVendor(st, key, value, probe);
    } else if VideoKey(probe) {
      SettingVideo(st, key, value, probe);
    } else {
      SettingAudio(st, key, value, probe);
    }
  }

  lemma SettingFlags(st: ConnectionState, key: string, value: string)
    requires SetAttribute(st, key, value).Some?
    ensures SetAttribute(st, key, value).value.video == if key == "Video" then value == "true" else st.video
    ensures SetAttribute(st, key, value).value.audio == if key == "Audio" then value == "true" else st.audio
  {
    assert "Video"[0] != "Audio"[0] && "true"[0] != "false"[0];
  }

  lemma SettingKeepsRest(st: ConnectionState, key: string, value: string)
    requires SetAttribute(st, key, value).Some?
    ensures var st' := SetAttribute(st, key, value).value;
      st'.hmacPayload == st.hmacPayload && st'.streamKey == st.streamKey && st'.rtpPort == st.rtpPort
  {}

  lemma {:induction false} ServedBefore(w: World, cs: seq<FtlCommand>)
    requires cs != [] && Interpret(w, cs).verdict.Serving?
    ensures Interpret(w, cs[..|cs| - 1]).verdict.Serving? && !Unanswered(cs[|cs| - 1])
  {
    var c, before := cs[|cs| - 1], Interpret(w, cs[..|cs| - 1]);
    if before.verdict.Serving? && !c.Dot? && !c.Disconnect? {
      UnansweredExactly(c, w.hmac(|cs| - 1), before.state);
    }
  }

  // ---- how far a session was served ----

  /** The commands up to the one that ended or silenced the session. */
  function Served(w: World, cs: seq<FtlCommand>): seq<FtlCommand> {
    if cs == [] || Interpret(w, cs).verdict.Serving? then cs else Served(w, cs[..|cs| - 1])
  }

  /** The command that ends or silences a session changes nothing. */
  lemma LastCommandKeepsState(w: World, cs: seq<FtlCommand>)
    requires cs != [] && !Interpret(w, cs).verdict.Serving?
    ensures Interpret(w, cs).state == Interpret(w, cs[..|cs| - 1]).state
  {
    var c, before := cs[|cs| - 1], Interpret(w, cs[..|cs| - 1]);
    if before.verdict.Serving? && !c.Dot? && !c.Disconnect? {
      UnansweredExactly(c, w.hmac(|cs| - 1), before.state);
    }
  }

  /** The served commands are the longest prefix after which the session still serves, and they alone make the state. */
  lemma {:induction false} ServedIsAll(w: World, cs: seq<FtlCommand>)
    ensures var served := Served(w, cs);
      && served <= cs && Interpret(w, served).verdict.Serving?
      && (forall n :: |served| < n <= |cs| ==> !Interpret(w, cs[..n]).verdict.Serving?)
      && Interpret(w, cs).state == Interpret(w, served).state
  {
    if cs != [] && !Interpret(w, cs).verdict.Serving? {
      var front := cs[..|cs| - 1];
      ServedIsAll(w, front);
      LastCommandKeepsState(w, cs);
      forall n | |Served(w, front)| < n <= |cs| ensures !Interpret(w, cs[..n]).verdict.Serving? {
        if n < |cs| {
          assert cs[..n] == front[..n];
        } else {
          assert cs[..n] == cs;
        }
      }
    }
  }

  /** Where a session stops serving its served commands end. */
  lemma ServedStops(w: World, cs: seq<FtlCommand>, n: nat)
    requires n < |cs| && Interpret(w, cs[..n]).verdict.Serving? && !Interpret(w, cs[..n + 1]).verdict.Serving?
    ensures Served(w, cs) == cs[..n]
  {
    ServedIsAll(w, cs);
    var m := |Served(w, cs)|;
    assert Served(w, cs) == cs[..m];
    if n < m {
      StaysOver(w, cs, n + 1, m);
    }
  }

  /** A session that is over stays over. */
  lemma {:induction false} StaysOver(w: World, cs: seq<FtlCommand>, n: nat, m: nat)
    requires n <= m <= |cs| && !Interpret(w, cs[..n]).verdict.Serving?
    ensures Interpret(w, cs[..m]) == Interpret(w, cs[..n])
  {
    if n < m {
      StaysOver(w, cs, n, m - 1);
      assert cs[..m][..m - 1] == cs[..m - 1];
    }
  }

  /** The command that ended the session was a dot, so its port was refused. */
  predicate Refused(w: World, cs: seq<FtlCommand>) {
    Interpret(w, cs).verdict.Returned? && |Served(w, cs)| < |cs| && cs[|Served(w, cs)|].Dot?
  }

  // ---- what the state holds ----

  lemma {:induction false} LastValueWhileServed(w: World, cs: seq<FtlCommand>, key: string)
    requires Interpret(w, cs).verdict.Serving? && TextKey(key)
    ensures Recorded(Interpret(w, cs).state, key) == LastValue(cs, key)
  {
    if cs != [] {
      var c, before := cs[|cs| - 1], cs[..|cs| - 1];
      ServedBefore(w, cs);
      LastValueWhileServed(w, before, key);
      if c.Attribute? {
        SettingRecords(Interpret(w, before).state, c.data["key"], c.data["value"], key);
      }
    }
  }

  lemma {:induction false} FlagsWhileServed(w: World, cs: seq<FtlCommand>)
    requires Interpret(w, cs).verdict.Serving?
    ensures Interpret(w, cs).state.video <==> LastValue(cs, "Video") == Some("true")
    ensures Interpret(w, cs).state.audio <==> LastValue(cs, "Audio") == Some("true")
  {
    if cs != [] {
      var c, before := cs[|cs| - 1], cs[..|cs| - 1];
      ServedBefore(w, cs);
      FlagsWhileServed(w, before);
      if c.Attribute? {
        SettingFlags(Interpret(w, before).state, c.data["key"], c.data["value"]);
      }
    }
  }

  lemma {:induction false} SessionWhileServed(w: World, cs: seq<FtlCommand>)
    requires Interpret(w, cs).verdict.Serving?
    ensures Interpret(w, cs).state.streamKey == LastStreamKey(cs)
    ensures Interpret(w, cs).state.hmacPayload == LastPayload(w, cs)
    ensures Interpret(w, cs).state.rtpPort == FirstPort(w, cs)
  {
    if cs != [] {
      var c, before := cs[|cs| - 1], cs[..|cs| - 1];
      ServedBefore(w, cs);
      SessionWhileServed(w, before);
      if c.Attribute? {
        SettingKeepsRest(Interpret(w, before).state, c.data["key"], c.data["value"]);
      }
    }
  }

  /** Every text attribute is remembered under its own key, with the last value sent while the session served. */
  lemma RemembersLastValue(w: World, cs: seq<FtlCommand>, key: string)
    requires TextKey(key)
    ensures Recorded(Interpret(w, cs).state, key) == LastValue(Served(w, cs), key)
  {
    ServedIsAll(w, cs);
    LastValueWhileServed(w, Served(w, cs), key);
  }

  /** Video and Audio are on exactly when the last flag served for them said true. */
  lemma RemembersFlags(w: World, cs: seq<FtlCommand>)
    ensures Interpret(w, cs).state.video <==> LastValue(Served(w, cs), "Video") == Some("true")
    ensures Interpret(w, cs).state.audio <==> LastValue(Served(w, cs), "Audio") == Some("true")
  {
    ServedIsAll(w, cs);
    FlagsWhileServed(w, Served(w, cs));
  }

  /** The stream key and the challenge are the last ones served, the port is the first one granted. */
  lemma RemembersSession(w: World, cs: seq<FtlCommand>)
    ensures Interpret(w, cs).state.streamKey == LastStreamKey(Served(w, cs))
    ensures Interpret(w, cs).state.hmacPayload == LastPayload(w, Served(w, cs))
    ensures Interpret(w, cs).state.rtpPort == FirstPort(w, Served(w, cs))
  {
    ServedIsAll(w, cs);
    SessionWhileServed(w, Served(w, cs));
  }

  // ---- what is announced ----

  /** The last stream key served, unless the session fell silent or was refused a port. */
  function NoticesDue(w: World, cs: seq<FtlCommand>): seq<string> {
    if Interpret(w, cs).verdict.Silent? || Refused(w, cs) then []
    else match LastStreamKey(Served(w, cs))
      case Some(key) => [key]
      case None => []
  }

  lemma NoticeAtHangUp(w: World, cs: seq<FtlCommand>)
    requires Interpret(w, cs).verdict.Serving?
    ensures NoticesDue(w, cs) == match Interpret(w, cs).state.streamKey { case Some(key) => [key] case None => [] }
  {
    RemembersSession(w, cs);
  }

  /** A session ends silent, by a disconnect, or by a dot that got no port. */
  lemma NoticeAtEnd(w: World, cs: seq<FtlCommand>, n: nat)
    requires n < |cs| && Interpret(w, cs[..n]).verdict.Serving? && !Interpret(w, cs[..n + 1]).verdict.Serving?
    ensures Interpret(w, cs) == Interpret(w, cs[..n + 1])
    ensures NoticesDue(w, cs) == match Interpret(w, cs).state.streamKey {
              case Some(key) => if cs[n].Disconnect? then [key] else []
              case None => []
            }
  {
    ServedStops(w, cs, n);
    StaysOver(w, cs, n + 1, |cs|);
    RemembersSession(w, cs);
    assert cs[..|cs|] == cs && cs[..n + 1][..n] == cs[..n];
  }
}

/**
  What a client writes to be understood: a printer for every command, the exact
  condition under which the codec's ordered substring tests and splits read the
  printed line back, and the same over the byte stream, however it is cut.
 */
module CommandSyntax {
  import opened Framing
  import opened FtlCodec
  import opened StreamDecoder
  import opened Text

  datatype Spoken =
    | SayHmac
    | SayConnect(channelId: string, streamKey: string)
    | SayDisconnect
    | SayPing
    | SayDot
    | SayAttribute(key: string, value: string)

  function Line(c: Spoken): string {
    match c
    case SayHmac => "HMAC"
    case SayConnect(id, key) => "CONNECT " + id + " $" + key
    case SayDisconnect => "DISCONNECT"
    case SayPing => "PING"
    case SayDot => "."
    case SayAttribute(key, value) => key + ": " + value
  }

  function Meaning(c: Spoken): FtlCommand {
    match c
    case SayHmac => HMAC
    case SayConnect(id, key) => Connect(map["channel_id" := id, "stream_key" := key])
    case SayDisconnect => Disconnect
    case SayPing => Ping
    case SayDot => Dot
    case SayAttribute(key, value) => Attribute(map["key" := key, "value" := value])
  }

  /** The fields a client can send: no separator, no word that an earlier test
      would match, and no blanks around a value. */
  predicate Printable(c: Spoken) {
    match c
    case SayConnect(id, key) =>
      && ' ' !in id && ' ' !in key
      && !Contains(id, "HMAC") && !Contains(key, "HMAC")
      && !Contains(id, "DISCONNECT") && !Contains(key, "DISCONNECT")
    case SayAttribute(key, value) =>
      && ':' !in key && ':' !in value && Trimmed(value)
      && !Contains(key, "HMAC") && !Contains(value, "HMAC")
      && !Contains(key, "CONNECT") && !Contains(value, "CONNECT")
    case _ => true
  }

  lemma ConnectWord()
    ensures !Contains("CONNECT", "HMAC") && !Contains("CONNECT", "DISCONNECT")
  {
    AbsentCharacter("CONNECT", "HMAC", 0);
    AbsentCharacter("CONNECT", "DISCONNECT", 0);
  }

  lemma DisconnectWord()
    ensures !Contains("DISCONNECT", "HMAC") && Contains("DISCONNECT", "CONNECT")
  {
    AbsentCharacter("DISCONNECT", "HMAC", 0);
    assert OccursAt("DISCONNECT", "CONNECT", 3);
  }

  /** A line without H and without C passes the first three tests. */
  lemma NoReservedWord(line: string)
    requires 'H' !in line && 'C' !in line
    ensures !Contains(line, "HMAC") && !Contains(line, "DISCONNECT") && !Contains(line, "CONNECT")
  {
    AbsentCharacter(line, "HMAC", 0);
    AbsentCharacter(line, "DISCONNECT", 3);
    AbsentCharacter(line, "CONNECT", 0);
  }

  /** A line that says DISCONNECT also says CONNECT, and is still never read as one. */
  lemma DisconnectIsNotConnect(line: string)
    requires Contains(line, "DISCONNECT")
    ensures Contains(line, "CONNECT")
    ensures Classify(line) == Command(if Contains(line, "HMAC") then HMAC else Disconnect)
  {
    DisconnectWord();
    ContainsTransitive(line, "DISCONNECT", "CONNECT");
  }

  lemma ConnectShape(id: string, key: string)
    ensures Line(SayConnect(id, key)) == "CONNECT" + [' '] + (id + [' '] + ("$" + key))
  {
    var line := Line(SayConnect(id, key));
    assert |line| == 10 + |id| + |key|;
  }

  /** A reserved word is in a CONNECT line exactly when it is in one of the fields. */
  lemma ConnectMentions(id: string, key: string, word: string)
    requires word != "" && ' ' !in word && '$' !in word && !Contains("CONNECT", word)
    ensures Contains(Line(SayConnect(id, key)), word) <==> Contains(id, word) || Contains(key, word)
  {
    var tail := id + [' '] + ("$" + key);
    ConnectShape(id, key);
    ContainsAcross("CONNECT", ' ', tail, word);
    ContainsAcross(id, ' ', "$" + key, word);
    assert "$" + key == "" + ['$'] + key;
    ContainsAcross("", '$', key, word);
  }

  lemma ConnectSays(id: string, key: string)
    ensures Contains(Line(SayConnect(id, key)), "CONNECT")
  {
    assert OccursAt(Line(SayConnect(id, key)), "CONNECT", 0);
  }

  lemma ConnectFields(id: string, key: string)
    ensures Split(Line(SayConnect(id, key)), ' ') == ["CONNECT"] + Split(id + [' '] + ("$" + key), ' ')
    ensures ' ' !in id && ' ' !in key ==> Split(Line(SayConnect(id, key)), ' ') == ["CONNECT", id, "$" + key]
  {
    ConnectShape(id, key);
    SplitCons("CONNECT", ' ', id + [' '] + ("$" + key));
    if ' ' !in id {
      SplitCons(id, ' ', "$" + key);
    }
  }

  lemma DistinctKeys()
    ensures "channel_id" != "stream_key" && "key" != "value"
  {
    assert "channel_id"[0] != "stream_key"[0];
  }

  lemma SameConnect(a: string, b: string, id: string, key: string)
    ensures map["channel_id" := a, "stream_key" := b] == map["channel_id" := id, "stream_key" := key]
            <==> a == id && b == key
  {
    DistinctKeys();
    var m, n := map["channel_id" := a, "stream_key" := b], map["channel_id" := id, "stream_key" := key];
    assert m["channel_id"] == a && n["channel_id"] == id;
    assert m["stream_key"] == b && n["stream_key"] == key;
  }

  lemma SameAttribute(a: string, b: string, key: string, value: string)
    ensures map["key" := a, "value" := b] == map["key" := key, "value" := value] <==> a == key && b == value
  {
    DistinctKeys();
    var m, n := map["key" := a, "value" := b], map["key" := key, "value" := value];
    assert m["key"] == a && n["key"] == key;
    assert m["value"] == b && n["value"] == value;
  }

  lemma ConnectReadsBack(id: string, key: string)
    ensures ClassifyConnect(Split(Line(SayConnect(id, key)), ' ')) == Command(Meaning(SayConnect(id, key)))
            <==> ' ' !in id && ' ' !in key
  {
    var parts := Split(Line(SayConnect(id, key)), ' ');
    ConnectFields(id, key);
    if ' ' !in id && ' ' !in key {
      assert ("$" + key)[1..] == key;
      assert ClassifyConnect(parts) == Command(Connect(map["channel_id" := parts[1], "stream_key" := parts[2][1..]]));
    } else if |parts| >= 3 && parts[2] != "" {
      assert ' ' !in parts[1] && ' ' !in parts[2];
      assert forall c <- parts[2][1..] :: c in parts[2];
      SameConnect(parts[1], parts[2][1..], id, key);
    }
  }

  lemma ConnectRoundTrip(id: string, key: string)
    ensures Classify(Line(SayConnect(id, key))) == Command(Meaning(SayConnect(id, key)))
            <==> Printable(SayConnect(id, key))
  {
    ConnectWord();
    ConnectMentions(id, key, "HMAC");
    ConnectMentions(id, key, "DISCONNECT");
    ConnectSays(id, key);
    ConnectReadsBack(id, key);
  }

  lemma AttributeMentions(key: string, value: string, word: string)
    requires word != "" && ':' !in word && ' ' !in word
    ensures Contains(Line(SayAttribute(key, value)), word) <==> Contains(key, word) || Contains(value, word)
  {
    assert Line(SayAttribute(key, value)) == key + [':'] + (" " + value);
    ContainsAcross(key, ':', " " + value, word);
    assert " " + value == "" + [' '] + value;
    ContainsAcross("", ' ', value, word);
  }

  lemma AttributeFields(key: string, value: string)
    requires ':' !in key && ':' !in value
    ensures Split(Line(SayAttribute(key, value)), ':') == [key, " " + value]
  {
    assert Line(SayAttribute(key, value)) == key + [':'] + (" " + value);
    SplitCons(key, ':', " " + value);
  }

  lemma AttributeReadsBack(key: string, value: string)
    ensures var parts := Split(Line(SayAttribute(key, value)), ':');
      && |parts| >= 2
      && (parts[0] == key && Trim(parts[1]) == value <==> ':' !in key && ':' !in value && Trimmed(value))
  {
    var line := Line(SayAttribute(key, value));
    assert line[|key|] == ':';
    var parts := Split(line, ':');
    if ':' !in key && ':' !in value {
      AttributeFields(key, value);
      TrimPadded(value);
    } else {
      assert ':' !in parts[0] && ':' !in parts[1];
      TrimKeepsCharacters(parts[1]);
    }
  }

  /** A line with a colon is read as a given attribute exactly when no earlier word occurs and the fields agree. */
  lemma ColonLine(line: string, key: string, value: string)
    requires ':' in line
    ensures var parts := Split(line, ':');
      Classify(line) == Command(Attribute(map["key" := key, "value" := value]))
      <==> !Contains(line, "HMAC") && !Contains(line, "CONNECT") && parts[0] == key && Trim(parts[1]) == value
  {
    if Contains(line, "DISCONNECT") { DisconnectIsNotConnect(line); }
    var parts := Split(line, ':');
    SameAttribute(parts[0], Trim(parts[1]), key, value);
  }

  lemma AttributeRoundTrip(key: string, value: string)
    ensures Classify(Line(SayAttribute(key, value))) == Command(Meaning(SayAttribute(key, value)))
            <==> Printable(SayAttribute(key, value))
  {
    var line := Line(SayAttribute(key, value));
    AttributeMentions(key, value, "HMAC");
    AttributeMentions(key, value, "CONNECT");
    assert line[|key|] == ':';
    AttributeReadsBack(key, value);
    ColonLine(line, key, value);
  }

  lemma TrimKeepsCharacters(s: string)
    ensures forall c <- Trim(s) :: c in s
  {}

  lemma HmacRoundTrip()
    ensures Classify("HMAC") == Command(HMAC)
  {
    ContainsItself("HMAC");
  }

  lemma DisconnectRoundTrip()
    ensures Classify("DISCONNECT") == Command(Disconnect)
  {
    DisconnectWord();
    ContainsItself("DISCONNECT");
  }

  lemma PingRoundTrip()
    ensures Classify("PING") == Command(Ping)
  {
    NoReservedWord("PING");
    ContainsItself("PING");
    PlainPing("PING");
  }

  /** Any line that mentions PING and nothing tested before it is a ping. */
  lemma PlainPing(line: string)
    requires !Contains(line, "HMAC") && !Contains(line, "DISCONNECT") && !Contains(line, "CONNECT")
    requires ':' !in line && |line| != 1 && Contains(line, "PING")
    ensures Classify(line) == Command(Ping)
  {}

  lemma DotRoundTrip()
    ensures Classify(".") == Command(Dot)
  {
    NoReservedWord(".");
  }

  /** The codec reads a printed command back exactly when its fields are printable. */
  lemma PrintParse(c: Spoken)
    ensures Classify(Line(c)) == Command(Meaning(c)) <==> Printable(c)
  {
    match c
    case SayConnect(id, key) => ConnectRoundTrip(id, key);
    case SayAttribute(key, value) => AttributeRoundTrip(key, value);
    case SayHmac => HmacRoundTrip();
    case SayDisconnect => DisconnectRoundTrip();
    case SayPing => PingRoundTrip();
    case SayDot => DotRoundTrip();
  }

  predicate Ascii(s: string) {
    forall i :: 0 <= i < |s| ==> s[i] as int < 128
  }

  function Bytes(s: string): (b: seq<byte>)
    requires Ascii(s)
    ensures |b| == |s|
  {
    seq(|s|, i requires 0 <= i < |s| => s[i] as int as byte)
  }

  /** The conversion of frames to text is exact on ASCII, as UTF-8 decoding is. */
  ghost predicate ReadsAscii(utf8: Utf8) {
    forall s: string :: Ascii(s) ==> utf8(Bytes(s)) == s
  }

  /** A command that can be put on the wire: printable ASCII whose line the delimiter can follow. */
  ghost predicate Sendable(c: Spoken) {
    Printable(c) && Ascii(Line(c)) && Clean(Bytes(Line(c)))
  }

  ghost predicate AllSendable(cs: seq<Spoken>) {
    forall k :: 0 <= k < |cs| ==> Sendable(cs[k])
  }

  ghost function WireLines(cs: seq<Spoken>): (lines: seq<seq<byte>>)
    requires AllSendable(cs)
    ensures forall t <- lines :: Clean(t)
  {
    if cs == [] then [] else
      assert Sendable(cs[0]);
      [Bytes(Line(cs[0]))] + WireLines(cs[1..])
  }

  function Meanings(cs: seq<Spoken>): seq<FtlCommand> {
    if cs == [] then [] else [Meaning(cs[0])] + Meanings(cs[1..])
  }

  lemma {:induction false} WireLinesRead(utf8: Utf8, cs: seq<Spoken>)
    requires ReadsAscii(utf8) && AllSendable(cs)
    ensures ReadFrames(Frame(utf8), Frames(WireLines(cs), [])) == Decoded(Meanings(cs), Open, [])
  {
    if cs != [] {
      assert Sendable(cs[0]);
      PrintParse(cs[0]);
      assert utf8(Bytes(Line(cs[0]))) == Line(cs[0]);
      assert WireLines(cs)[1..] == WireLines(cs[1..]);
      WireLinesRead(utf8, cs[1..]);
    }
  }

  /** The whole way: a client's commands, printed, framed and delivered in chunks cut anywhere,
      are decoded to exactly those commands, with nothing left over. */
  lemma WireRoundTrip(utf8: Utf8, cs: seq<Spoken>, chunks: seq<seq<byte>>)
    requires ReadsAscii(utf8) && AllSendable(cs)
    requires Flatten(chunks) == JoinFrames(WireLines(cs))
    ensures ArriveAll(Frame(utf8), Drain(Frame(utf8), []), chunks) == Decoded(Meanings(cs), Open, [])
  {
    var b := JoinFrames(WireLines(cs));
    ChunkIndependence(Frame(utf8), [], chunks);
    assert [] + Flatten(chunks) == b;
    assert b + [] == b;
    FramesUnique(b, Frames(WireLines(cs), []));
    DrainReadsFrames(Frame(utf8), b);
    WireLinesRead(utf8, cs);
  }
}

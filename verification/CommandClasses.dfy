/** What every line is read as, by its characters alone, and when a byte stream fails on an unknown line. */
module CommandClasses {
  import opened CodecPanics
  import opened CommandSyntax
  import opened Framing
  import opened FtlCodec
  import opened StreamDecoder
  import opened Text
  import opened Wrappers

  /** A line that is no command at all. */
  predicate Unknown(line: string) {
    !Contains(line, "HMAC") && !Contains(line, "CONNECT") && ':' !in line && !Contains(line, "PING") && line != "."
  }

  lemma NoConnectNoDisconnect(line: string)
    ensures Contains(line, "DISCONNECT") ==> Contains(line, "CONNECT")
  {
    if Contains(line, "DISCONNECT") {
      DisconnectIsNotConnect(line);
    }
  }

  lemma DotSaysNothing(line: string)
    ensures '.' in line && |line| == 1 <==> line == "."
    ensures line == "." ==>
      !Contains(line, "PING") && !Contains(line, "HMAC") && !Contains(line, "CONNECT") && ':' !in line
  {
    if line == "." {
      NoReservedWord(line);
      AbsentCharacter(line, "PING", 0);
    }
  }

  lemma HmacExactly(line: string)
    ensures Classify(line) == Command(HMAC) <==> Contains(line, "HMAC")
  {}

  lemma DisconnectExactly(line: string)
    ensures Classify(line) == Command(Disconnect) <==> Contains(line, "DISCONNECT") && !Contains(line, "HMAC")
  {}

  lemma DotExactly(line: string)
    ensures Classify(line) == Command(Dot) <==> line == "."
  {
    NoConnectNoDisconnect(line);
    DotSaysNothing(line);
  }

  lemma PingExactly(line: string)
    ensures Classify(line) == Command(Ping) <==>
              Contains(line, "PING") && !Contains(line, "HMAC") && !Contains(line, "CONNECT") && ':' !in line
  {
    NoConnectNoDisconnect(line);
    DotSaysNothing(line);
  }

  /** The decoder rejects exactly the lines that are no command, and says which one it was. */
  lemma UnsupportedExactly(line: string, text: string)
    ensures Classify(line) == Unsupported(text) <==> Unknown(line) && text == line
  {
    NoConnectNoDisconnect(line);
    DotSaysNothing(line);
  }

  // ---- fields ----

  /** The stretch of a line between two separators, or a separator and an end. */
  ghost predicate FieldAt(line: string, sep: char, lo: nat, hi: nat) {
    && lo <= hi <= |line| && sep !in line[lo..hi]
    && (lo == 0 || line[lo - 1] == sep) && (hi == |line| || line[hi] == sep)
  }

  lemma FirstField(line: string, sep: char, hi: nat)
    requires FieldAt(line, sep, 0, hi)
    ensures Split(line, sep)[0] == line[..hi]
    ensures |Split(line, sep)| > 1 <==> hi < |line|
    ensures hi < |line| ==> Split(line, sep) == [line[..hi]] + Split(line[hi + 1..], sep)
  {
    if hi < |line| {
      assert line == line[..hi] + [sep] + line[hi + 1..];
      SplitCons(line[..hi], sep, line[hi + 1..]);
    } else {
      assert line[..hi] == line;
    }
  }

  lemma SliceOfSlice(s: string, start: nat, e: nat, lo: nat, hi: nat)
    requires start <= lo <= hi <= e <= |s|
    ensures s[start..e][lo - start..hi - start] == s[lo..hi]
  {
    forall k | 0 <= k < hi - lo ensures s[start..e][lo - start..hi - start][k] == s[lo..hi][k] {
      assert s[start..e][lo - start + k] == s[lo + k];
    }
  }

  lemma LaterField(line: string, sep: char, cut: nat, lo: nat, hi: nat)
    requires cut < lo && FieldAt(line, sep, lo, hi)
    ensures FieldAt(line[cut + 1..], sep, lo - cut - 1, hi - cut - 1)
    ensures line[cut + 1..][lo - cut - 1..hi - cut - 1] == line[lo..hi]
  {
    assert line[cut + 1..] == line[cut + 1..|line|];
    SliceOfSlice(line, cut + 1, |line|, lo, hi);
  }

  lemma FieldBehind(line: string, sep: char, cut: nat, hi: nat)
    requires FieldAt(line, sep, cut + 1, hi)
    ensures Split(line[cut + 1..], sep)[0] == line[cut + 1..hi]
    ensures hi < |line| ==> Split(line[cut + 1..], sep) == [line[cut + 1..hi]] + Split(line[hi + 1..], sep)
  {
    var rest, n := line[cut + 1..], hi - cut - 1;
    LaterField(line, sep, cut, cut + 1, hi);
    FirstField(rest, sep, n);
    assert rest[..n] == line[cut + 1..hi];
    assert hi < |line| ==> rest[n + 1..] == line[hi + 1..];
  }

  lemma SecondFieldIs(line: string, sep: char, i: nat, j: nat)
    requires FieldAt(line, sep, 0, i) && FieldAt(line, sep, i + 1, j)
    ensures |Split(line, sep)| >= 2 && Split(line, sep)[0] == line[..i] && Split(line, sep)[1] == line[i + 1..j]
    ensures j < |line| ==> Split(line, sep)[2..] == Split(line[j + 1..], sep)
  {
    FirstField(line, sep, i);
    FieldBehind(line, sep, i, j);
    assert Split(line, sep)[1..] == Split(line[i + 1..], sep);
  }

  lemma ThirdFieldIs(line: string, sep: char, i: nat, j: nat, e: nat)
    requires FieldAt(line, sep, 0, i) && FieldAt(line, sep, i + 1, j) && FieldAt(line, sep, j + 1, e)
    ensures |Split(line, sep)| >= 3 && Split(line, sep)[1] == line[i + 1..j] && Split(line, sep)[2] == line[j + 1..e]
  {
    SecondFieldIs(line, sep, i, j);
    FieldBehind(line, sep, j, e);
    HeadOfTail(Split(line, sep), Split(line[j + 1..], sep));
  }

  lemma HeadOfTail(parts: seq<string>, tail: seq<string>)
    requires |parts| >= 2 && parts[2..] == tail && tail != []
    ensures |parts| >= 3 && parts[2] == tail[0]
  {}

  lemma ConnectReads(line: string, parts: seq<string>)
    requires Contains(line, "CONNECT") && !Contains(line, "HMAC") && !Contains(line, "DISCONNECT")
    requires parts == Split(line, ' ') && |parts| >= 3 && parts[2] != ""
    ensures Classify(line) == Command(Connect(map["channel_id" := parts[1], "stream_key" := parts[2][1..]]))
  {}

  lemma AttributeReads(line: string, parts: seq<string>)
    requires ':' in line && !Contains(line, "HMAC") && !Contains(line, "CONNECT") && parts == Split(line, ':')
    ensures |parts| >= 2
    ensures Classify(line) == Command(Attribute(map["key" := parts[0], "value" := Trim(parts[1])]))
  {
    NoConnectNoDisconnect(line);
  }

  lemma TrimWithin(line: string, start: nat, e: nat, lo: nat, hi: nat)
    requires start <= lo <= hi <= e <= |line| && Trimmed(line[lo..hi]) && (lo == hi ==> hi == e)
    requires forall k :: start <= k < lo || hi <= k < e ==> IsWhitespace(line[k])
    ensures Trim(line[start..e]) == line[lo..hi]
  {
    var field := line[start..e];
    SliceOfSlice(line, start, e, lo, hi);
    TrimIs(field, lo - start, hi - start);
  }

  /** A connect takes its channel from between the first two blanks, and its key from behind the second, but for
      the key's first character. */
  lemma ConnectTakes(line: string, i: nat, j: nat, e: nat)
    requires Contains(line, "CONNECT") && !Contains(line, "HMAC") && !Contains(line, "DISCONNECT")
    requires FieldAt(line, ' ', 0, i) && FieldAt(line, ' ', i + 1, j) && FieldAt(line, ' ', j + 1, e) && e > j + 1
    ensures Classify(line) == Command(Connect(map["channel_id" := line[i + 1..j], "stream_key" := line[j + 2..e]]))
  {
    ThirdFieldIs(line, ' ', i, j, e);
    ConnectReads(line, Split(line, ' '));
    assert line[j + 1..e][1..] == line[j + 2..e];
  }

  /** A connect is read exactly from the lines that have the three fields. */
  lemma ConnectExactly(line: string)
    ensures (exists data :: Classify(line) == Command(Connect(data))) <==>
              Contains(line, "CONNECT") && !Contains(line, "HMAC") && !Contains(line, "DISCONNECT") && !LacksKey(line)
  {
    PanicsExactly(line);
    if Contains(line, "CONNECT") && !Contains(line, "HMAC") && !Contains(line, "DISCONNECT") && !LacksKey(line) {
      var parts := Split(line, ' ');
      ConnectReads(line, parts);
    }
  }

  /** An attribute's key is what stands before the first colon, its value what stands behind it, up to the next
      colon and without the white space around it. */
  lemma AttributeTakes(line: string, i: nat, e: nat, lo: nat, hi: nat)
    requires !Contains(line, "HMAC") && !Contains(line, "CONNECT")
    requires FieldAt(line, ':', 0, i) && FieldAt(line, ':', i + 1, e) && i + 1 <= lo <= hi <= e
    requires Trimmed(line[lo..hi]) && (lo == hi ==> hi == e)
    requires forall k :: i + 1 <= k < lo || hi <= k < e ==> IsWhitespace(line[k])
    ensures Classify(line) == Command(Attribute(map["key" := line[..i], "value" := line[lo..hi]]))
  {
    SecondFieldIs(line, ':', i, e);
    AttributeReads(line, Split(line, ':'));
    TrimWithin(line, i + 1, e, lo, hi);
  }

  lemma TrimIs(s: string, lo: nat, hi: nat)
    requires lo <= hi <= |s| && Trimmed(s[lo..hi]) && (lo == hi ==> hi == |s|)
    requires forall k :: 0 <= k < lo || hi <= k < |s| ==> IsWhitespace(s[k])
    ensures Trim(s) == s[lo..hi]
  {
    var t := TrimStart(s);
    if lo < hi {
      assert s[lo..hi][0] == s[lo] && s[lo..hi][hi - lo - 1] == s[hi - 1];
      assert |t| == |s| - lo;
      var r := TrimEnd(t);
      assert |r| == hi - lo;
    } else {
      assert t == "";
    }
  }

  /** An attribute is read exactly from the lines with a colon that say neither HMAC nor CONNECT. */
  lemma AttributeExactly(line: string)
    ensures (exists data :: Classify(line) == Command(Attribute(data))) <==>
              ':' in line && !Contains(line, "HMAC") && !Contains(line, "CONNECT")
  {
    NoConnectNoDisconnect(line);
    if ':' in line && !Contains(line, "HMAC") && !Contains(line, "CONNECT") {
      var parts := Split(line, ':');
      AttributeReads(line, parts);
    }
  }

  // ---- over a byte stream ----

  /** The first frame that is not a command is an unknown line. */
  ghost predicate FailFrame(utf8: Utf8, texts: seq<seq<byte>>, n: nat, text: string) {
    && n < |texts| && utf8(texts[n]) == text && Unknown(text)
    && forall k :: 0 <= k < n ==> Classify(utf8(texts[k])).Command?
  }

  lemma FailsLater(utf8: Utf8, texts: seq<seq<byte>>, n: nat, text: string)
    requires texts != [] && Classify(utf8(texts[0])).Command?
    ensures FailFrame(utf8, texts[1..], n, text) <==> FailFrame(utf8, texts, n + 1, text)
  {
    if FailFrame(utf8, texts[1..], n, text) {
      forall k | 0 <= k < n + 1 ensures Classify(utf8(texts[k])).Command? {
        assert k > 0 ==> texts[k] == texts[1..][k - 1];
      }
    }
  }

  lemma {:induction false} ReadingFails(utf8: Utf8, f: Frames, text: string)
    ensures ReadFrames(Frame(utf8), f).ending == Failed(text) <==> exists n: nat :: FailFrame(utf8, f.texts, n, text)
    decreases |f.texts|
  {
    if f.texts != [] {
      var line, later := utf8(f.texts[0]), Frames(f.texts[1..], f.rest);
      UnsupportedExactly(line, text);
      if Classify(line).Command? {
        ReadingFails(utf8, later, text);
        UnsupportedExactly(line, line);
        assert !FailFrame(utf8, f.texts, 0, text);
        forall n: nat ensures FailFrame(utf8, later.texts, n, text) <==> FailFrame(utf8, f.texts, n + 1, text) {
          FailsLater(utf8, f.texts, n, text);
        }
        forall n: nat | FailFrame(utf8, f.texts, n, text) ensures n > 0 && FailFrame(utf8, later.texts, n - 1, text) {
          FailsLater(utf8, f.texts, n - 1, text);
        }
      } else {
        assert Unknown(line) && line == text ==> FailFrame(utf8, f.texts, 0, text);
        forall n: nat | FailFrame(utf8, f.texts, n, text) ensures n == 0 {}
      }
    }
  }

  /** A connection's decoder fails, however its bytes are cut, exactly when the first frame that is no command
      is an unknown line, and the error carries that line. */
  lemma StreamFailsExactly(utf8: Utf8, chunks: seq<seq<byte>>, text: string)
    ensures ArriveAll(Frame(utf8), Drain(Frame(utf8), []), chunks).ending == Failed(text)
            <==> exists n: nat :: FailFrame(utf8, SplitFrames(Flatten(chunks)).texts, n, text)
  {
    var b := Flatten(chunks);
    ChunkIndependence(Frame(utf8), [], chunks);
    assert [] + b == b;
    DrainReadsFrames(Frame(utf8), b);
    ReadingFails(utf8, SplitFrames(b), text);
  }
}

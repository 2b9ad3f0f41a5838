/** The lines on which the decoder panics, exactly, and what that means for a byte stream. */
module CodecPanics {
  import opened CommandSyntax
  import opened Framing
  import opened FtlCodec
  import opened StreamDecoder
  import opened Text
  import opened Wrappers

  predicate BlankAt(line: string, i: int) {
    0 <= i < |line| && line[i] == ' '
  }

  ghost predicate FewerThanTwoBlanks(line: string) {
    forall i, j :: i < j ==> !(BlankAt(line, i) && BlankAt(line, j))
  }

  /** Exactly one blank stands before `j`, which is one itself. */
  ghost predicate SecondBlank(line: string, j: int) {
    && BlankAt(line, j)
    && exists i :: i < j && BlankAt(line, i) && forall k :: k < j && BlankAt(line, k) ==> k == i
  }

  /** There is no text between the second blank and the next one, or the end. */
  ghost predicate LacksKey(line: string) {
    FewerThanTwoBlanks(line) || exists j :: SecondBlank(line, j) && (j == |line| - 1 || BlankAt(line, j + 1))
  }

  /** A CONNECT without a key field that is neither an HMAC nor a DISCONNECT. */
  ghost predicate Panics(line: string) {
    Contains(line, "CONNECT") && !Contains(line, "HMAC") && !Contains(line, "DISCONNECT") && LacksKey(line)
  }

  // ---- fields and blanks ----

  lemma NoBlank(line: string)
    requires IndexOf(line, ' ').None?
    ensures |Split(line, ' ')| == 1 && FewerThanTwoBlanks(line)
  {}

  lemma OneBlank(line: string, i: nat)
    requires IndexOf(line, ' ') == Some(i) && IndexOf(line[i + 1..], ' ').None?
    ensures |Split(line, ' ')| == 2 && FewerThanTwoBlanks(line)
  {
    NoBlank(line[i + 1..]);
    forall k | BlankAt(line, k) ensures k == i {
      if k < i {
        BeforeFirst(line, i, k);
      } else {
        AfterFirst(line, i, k);
      }
    }
  }

  lemma BeforeFirst(line: string, i: nat, k: int)
    requires IndexOf(line, ' ') == Some(i) && k < i
    ensures !BlankAt(line, k)
  {
    if 0 <= k {
      assert line[k] == line[..i][k];
    }
  }

  lemma AfterFirst(line: string, i: nat, k: int)
    requires i < |line|
    ensures i < k ==> (BlankAt(line, k) <==> BlankAt(line[i + 1..], k - i - 1))
  {}

  lemma TwoBlanks(line: string, i: nat, n: nat)
    requires IndexOf(line, ' ') == Some(i) && IndexOf(line[i + 1..], ' ') == Some(n)
    ensures |Split(line, ' ')| >= 3 && SecondBlank(line, i + 1 + n)
    ensures Split(line, ' ')[2] == "" <==> i + 1 + n == |line| - 1 || BlankAt(line, i + 1 + n + 1)
  {
    var rest, j := line[i + 1..], i + 1 + n;
    assert BlankAt(line, i) && BlankAt(line, j);
    forall k | k < j && BlankAt(line, k) ensures k == i {
      if k < i {
        BeforeFirst(line, i, k);
      } else if i < k {
        AfterFirst(line, i, k);
        BeforeFirst(rest, n, k - i - 1);
      }
    }
    assert rest[n + 1..] == line[j + 1..];
    FirstFieldEmpty(line[j + 1..]);
    assert Split(line, ' ') == [line[..i]] + ([rest[..n]] + Split(line[j + 1..], ' '));
  }

  lemma FirstFieldEmpty(s: string)
    ensures Split(s, ' ')[0] == "" <==> s == "" || s[0] == ' '
  {}

  /** The second blank is where the third field starts. */
  lemma SecondBlankIs(line: string, j: int, k: int)
    requires SecondBlank(line, j) && SecondBlank(line, k)
    ensures j == k && !FewerThanTwoBlanks(line)
  {}

  lemma SecondBlankStands(line: string, j: int)
    requires SecondBlank(line, j)
    ensures LacksKey(line) <==> j == |line| - 1 || BlankAt(line, j + 1)
  {
    forall k | SecondBlank(line, k) ensures k == j && !FewerThanTwoBlanks(line) {
      SecondBlankIs(line, j, k);
    }
  }

  lemma ThirdField(line: string)
    ensures |Split(line, ' ')| < 3 || Split(line, ' ')[2] == "" <==> LacksKey(line)
  {
    var i := IndexOf(line, ' ');
    if i.None? {
      NoBlank(line);
    } else {
      var n := IndexOf(line[i.value + 1..], ' ');
      if n.None? {
        OneBlank(line, i.value);
      } else {
        TwoBlanks(line, i.value, n.value);
        SecondBlankStands(line, i.value + 1 + n.value);
      }
    }
  }

  /** The decoder panics on a line exactly when the line has no key to take. */
  lemma PanicsExactly(line: string)
    ensures Classify(line).Crash? <==> Panics(line)
  {
    ThirdField(line);
  }

  // ---- over a byte stream ----

  /** The first frame that is not a command is such a line. */
  ghost predicate PanicFrame(utf8: Utf8, texts: seq<seq<byte>>, n: nat) {
    && n < |texts| && Panics(utf8(texts[n]))
    && forall k :: 0 <= k < n ==> Classify(utf8(texts[k])).Command?
  }

  lemma {:induction false} ReadingPanics(utf8: Utf8, f: Frames)
    ensures ReadFrames(Frame(utf8), f).ending.Panicked? <==> exists n: nat :: PanicFrame(utf8, f.texts, n)
    decreases |f.texts|
  {
    if f.texts != [] {
      var line, later := utf8(f.texts[0]), Frames(f.texts[1..], f.rest);
      PanicsExactly(line);
      ReadingPanics(utf8, later);
      if Classify(line).Command? {
        forall n: nat | PanicFrame(utf8, later.texts, n) ensures PanicFrame(utf8, f.texts, n + 1) {
          forall k | 0 <= k < n + 1 ensures Classify(utf8(f.texts[k])).Command? {
            assert k > 0 ==> f.texts[k] == later.texts[k - 1];
          }
        }
        forall n: nat | PanicFrame(utf8, f.texts, n) ensures n > 0 && PanicFrame(utf8, later.texts, n - 1) {
          forall k | 0 <= k < n - 1 ensures Classify(utf8(later.texts[k])).Command? {
            assert later.texts[k] == f.texts[k + 1];
          }
        }
      } else if Panics(line) {
        assert PanicFrame(utf8, f.texts, 0);
      } else {
        forall n: nat ensures !PanicFrame(utf8, f.texts, n) {
          assert n > 0 ==> !Classify(utf8(f.texts[0])).Command?;
        }
      }
    }
  }

  /** A connection's decoder panics, however its bytes are cut, exactly when the first frame
      that is no command is a CONNECT without a key to take. */
  lemma StreamPanicsExactly(utf8: Utf8, chunks: seq<seq<byte>>)
    ensures ArriveAll(Frame(utf8), Drain(Frame(utf8), []), chunks).ending.Panicked?
            <==> exists n: nat :: PanicFrame(utf8, SplitFrames(Flatten(chunks)).texts, n)
  {
    var b := Flatten(chunks);
    ChunkIndependence(Frame(utf8), [], chunks);
    assert [] + b == b;
    DrainReadsFrames(Frame(utf8), b);
    ReadingPanics(utf8, SplitFrames(b));
  }

  // ---- inputs ----

  /** Too few fields. */
  lemma ShortConnectPanics()
    ensures Classify("CONNECT 1").Crash?
  {
    NotReserved("CONNECT 1");
    assert OccursAt("CONNECT 1", "CONNECT", 0);
    SplitCons("CONNECT", ' ', "1");
    assert "CONNECT" + [' '] + "1" == "CONNECT 1";
  }

  /** An empty third field. */
  lemma BlankKeyPanics()
    ensures Classify("CONNECT 1  ").Crash?
  {
    var line := "CONNECT 1  ";
    NotReserved(line);
    assert OccursAt(line, "CONNECT", 0);
    assert line[7] == ' ' && line[9] == ' ' && line[10] == ' ';
    assert forall k :: 0 <= k < 7 ==> line[k] == "CONNECT"[k];
    BlankKey(line);
    PanicsExactly(line);
  }

  lemma BlankKey(line: string)
    requires |line| == 11 && line[7] == line[9] == line[10] == ' ' && line[8] != ' '
    requires forall k :: 0 <= k < 7 ==> line[k] != ' '
    ensures LacksKey(line)
  {
    assert BlankAt(line, 7) && BlankAt(line, 10);
    assert SecondBlank(line, 9);
  }

  lemma NotReserved(line: string)
    requires line == "CONNECT 1" || line == "CONNECT 1  "
    ensures !Contains(line, "HMAC") && !Contains(line, "DISCONNECT")
  {
    AbsentCharacter(line, "HMAC", 0);
    AbsentCharacter(line, "DISCONNECT", 0);
  }

  /** An empty key by itself is no reason to panic. */
  lemma EmptyKeyConnects()
    ensures Classify("CONNECT 1 $") == Command(Connect(map["channel_id" := "1", "stream_key" := ""]))
  {
    assert Line(SayConnect("1", "")) == "CONNECT 1 $";
    ConnectRoundTrip("1", "");
    AbsentCharacter("1", "HMAC", 0);
    AbsentCharacter("1", "DISCONNECT", 0);
    AbsentCharacter("", "HMAC", 0);
    AbsentCharacter("", "DISCONNECT", 0);
  }
}

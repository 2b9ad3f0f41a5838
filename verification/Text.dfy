/**
  The string operations the ingest server takes from its standard library:
  substring search, splitting on a separator and trimming.
 */
module Text {
  import opened Wrappers

  predicate OccursAt(s: string, word: string, i: nat) {
    i + |word| <= |s| && forall k :: 0 <= k < |word| ==> s[i + k] == word[k]
  }

  /** Does `word` occur anywhere in `s`? */
  predicate Contains(s: string, word: string) {
    exists i: nat :: i <= |s| && OccursAt(s, word, i)
  }

  /** A word that avoids the separator occurs in a joined text exactly when it occurs in one of the two halves. */
  lemma ContainsAcross(a: string, sep: char, b: string, word: string)
    requires sep !in word && word != ""
    ensures Contains(a + [sep] + b, word) <==> Contains(a, word) || Contains(b, word)
  {
    var s := a + [sep] + b;
    forall i: nat
      ensures OccursAt(s, word, i) ==> OccursAt(a, word, i) || (i > |a| && OccursAt(b, word, i - |a| - 1))
    {
      if i <= |a| < i + |word| {
        assert s[i + (|a| - i)] == sep != word[|a| - i];
      } else if OccursAt(s, word, i) {
        forall k | 0 <= k < |word|
          ensures if i > |a| then b[i - |a| - 1 + k] == word[k] else a[i + k] == word[k]
        {
          assert s[i + k] == word[k];
        }
      }
    }
    forall i: nat | OccursAt(a, word, i) ensures OccursAt(s, word, i) {
      forall k | 0 <= k < |word| ensures s[i + k] == word[k] {
        assert a[i + k] == word[k];
      }
    }
    forall i: nat | OccursAt(b, word, i) ensures OccursAt(s, word, i + |a| + 1) {
      forall k | 0 <= k < |word| ensures s[i + |a| + 1 + k] == word[k] {
        assert b[i + k] == word[k];
      }
    }
  }

  /** A word that needs an absent character does not occur. */
  lemma AbsentCharacter(s: string, word: string, k: nat)
    requires k < |word| && word[k] !in s
    ensures !Contains(s, word)
  {
    forall i: nat | i + |word| <= |s| ensures !OccursAt(s, word, i) {
      assert s[i + k] in s;
    }
  }

  lemma ContainsItself(word: string)
    ensures Contains(word, word)
  {
    assert OccursAt(word, word, 0);
  }

  lemma ContainsTransitive(s: string, word: string, inner: string)
    requires Contains(s, word) && Contains(word, inner)
    ensures Contains(s, inner)
  {
    var i: nat :| i <= |s| && OccursAt(s, word, i);
    var j: nat :| j <= |word| && OccursAt(word, inner, j);
    OccursWithin(s, word, i, inner, j);
  }

  lemma OccursWithin(s: string, word: string, i: nat, inner: string, j: nat)
    requires OccursAt(s, word, i) && OccursAt(word, inner, j)
    ensures OccursAt(s, inner, i + j)
  {
    forall k | 0 <= k < |inner| ensures s[i + j + k] == inner[k] {
      assert s[i + (j + k)] == word[j + k];
    }
  }

  function Join(parts: seq<string>, sep: char): string {
    if |parts| == 0 then "" else if |parts| == 1 then parts[0] else parts[0] + [sep] + Join(parts[1..], sep)
  }

  function IndexOf(s: string, c: char): (r: Option<nat>)
    ensures r.None? <==> c !in s
    ensures r.Some? ==> r.value < |s| && s[r.value] == c && c !in s[..r.value]
  {
    if s == "" then None
    else if s[0] == c then Some(0)
    else match IndexOf(s[1..], c)
      case None => None
      case Some(i) => assert s[..i + 1] == [s[0]] + s[1..][..i]; Some(i + 1)
  }

  /** All the pieces of `s` between occurrences of `sep`; a text without the separator is its own single piece. */
  function Split(s: string, sep: char): (parts: seq<string>)
    ensures parts != []
    ensures forall p <- parts :: sep !in p
    ensures Join(parts, sep) == s
    ensures |parts| > 1 <==> sep in s
    decreases |s|
  {
    match IndexOf(s, sep)
    case None => [s]
    case Some(i) => assert s == s[..i] + [sep] + s[i + 1..]; [s[..i]] + Split(s[i + 1..], sep)
  }

  lemma {:induction false} IndexOfIs(s: string, c: char, i: nat)
    requires i < |s| && s[i] == c && c !in s[..i]
    ensures IndexOf(s, c) == Some(i)
  {
    if i > 0 {
      assert s[0] == s[..i][0];
      assert s[..i] == [s[0]] + s[1..][..i - 1];
      IndexOfIs(s[1..], c, i - 1);
    }
  }

  lemma SplitCons(a: string, sep: char, b: string)
    requires sep !in a
    ensures Split(a + [sep] + b, sep) == [a] + Split(b, sep)
  {
    var s := a + [sep] + b;
    assert s[..|a|] == a && s[|a| + 1..] == b;
    IndexOfIs(s, sep, |a|);
  }

  /** The Unicode White_Space property. */
  predicate IsWhitespace(c: char) {
    '\t' <= c <= '\r' || c == ' ' || c == '\U{0085}' || c == '\U{00A0}' || c == '\U{1680}' ||
    '\U{2000}' <= c <= '\U{200A}' || c == '\U{2028}' || c == '\U{2029}' || c == '\U{202F}' ||
    c == '\U{205F}' || c == '\U{3000}'
  }

  predicate Trimmed(s: string) {
    s == "" || (!IsWhitespace(s[0]) && !IsWhitespace(s[|s| - 1]))
  }

  function TrimStart(s: string): (r: string)
    ensures |r| <= |s| && r == s[|s| - |r|..]
    ensures r == "" || !IsWhitespace(r[0])
    ensures forall i :: 0 <= i < |s| - |r| ==> IsWhitespace(s[i])
  {
    if s != "" && IsWhitespace(s[0]) then TrimStart(s[1..]) else s
  }

  function TrimEnd(s: string): (r: string)
    ensures |r| <= |s| && r == s[..|r|]
    ensures r == "" || !IsWhitespace(r[|r| - 1])
    ensures forall i :: |r| <= i < |s| ==> IsWhitespace(s[i])
  {
    if s != "" && IsWhitespace(s[|s| - 1]) then TrimEnd(s[..|s| - 1]) else s
  }

  function Trim(s: string): (r: string)
    ensures Trimmed(r)
  {
    TrimEnd(TrimStart(s))
  }

  /** Trimming undoes a padding blank exactly when the text was trimmed to begin with. */
  lemma TrimPadded(s: string)
    ensures Trim(" " + s) == s <==> Trimmed(s)
  {
    if Trimmed(s) {
      var t := TrimStart(" " + s);
      assert t == TrimStart(s) by { assert (" " + s)[1..] == s; }
      assert t == s;
      assert TrimEnd(s) == s;
    }
  }

  function Concat(parts: seq<string>): string {
    if parts == [] then "" else parts[0] + Concat(parts[1..])
  }

  lemma {:induction false} ConcatAppend(a: seq<string>, b: seq<string>)
    ensures Concat(a + b) == Concat(a) + Concat(b)
  {
    if a == [] {
      assert a + b == b;
    } else {
      assert (a + b)[1..] == a[1..] + b;
      ConcatAppend(a[1..], b);
    }
  }

  function Reverse<T>(s: seq<T>): (r: seq<T>)
    ensures |r| == |s|
  {
    if s == [] then [] else Reverse(s[1..]) + [s[0]]
  }
}

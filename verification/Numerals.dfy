/** Decimal and hexadecimal numerals, as the replies to a client spell them. */
module Numerals {
  import opened Framing

  function Digit(d: nat): (c: char)
    requires d < 16
    ensures DigitValue(c) == d
    ensures '0' <= c <= '9' || 'a' <= c <= 'f'
  {
    if d < 10 then '0' + d as char else 'a' + (d - 10) as char
  }

  function DigitValue(c: char): int {
    if '0' <= c <= '9' then (c - '0') as int
    else if 'a' <= c <= 'f' then (c - 'a') as int + 10
    else -1
  }

  predicate Digits(s: string) {
    s != "" && forall i :: 0 <= i < |s| ==> '0' <= s[i] <= '9'
  }

  /** Without a leading zero, except for zero itself. */
  function Decimal(n: nat): (s: string)
    ensures Digits(s)
    ensures if n == 0 then s == "0" else s[0] != '0'
  {
    if n < 10 then [Digit(n)] else Decimal(n / 10) + [Digit(n % 10)]
  }

  function ParseDecimal(s: string): int {
    if s == "" then 0 else 10 * ParseDecimal(s[..|s| - 1]) + DigitValue(s[|s| - 1])
  }

  lemma {:induction false} DecimalRoundTrip(n: nat)
    ensures ParseDecimal(Decimal(n)) == n
  {
    if n < 10 {
      assert ParseDecimal([Digit(n)]) == 10 * ParseDecimal("") + DigitValue(Digit(n));
    } else {
      DecimalRoundTrip(n / 10);
      var s := Decimal(n);
      assert s[..|s| - 1] == Decimal(n / 10);
    }
  }

  function Zeros(z: nat): (s: string)
    ensures |s| == z && forall i :: 0 <= i < z ==> s[i] == '0'
  {
    seq(z, _ => '0')
  }

  /** The numeral behind some zeros. */
  function Padded(z: nat, n: nat): (s: string)
    ensures Digits(s)
  {
    Zeros(z) + Decimal(n)
  }

  /** Leading zeros do not change the number read. */
  lemma {:induction false} ZerosIgnored(z: nat, s: string)
    ensures ParseDecimal(Zeros(z) + s) == ParseDecimal(s)
    decreases |s|, z
  {
    var text := Zeros(z) + s;
    if s != "" {
      ZerosIgnored(z, s[..|s| - 1]);
      assert text[..|text| - 1] == Zeros(z) + s[..|s| - 1];
    } else if z > 0 {
      ZerosIgnored(z - 1, s);
      assert text[..|text| - 1] == Zeros(z - 1) + s;
    }
  }

  lemma PaddedReads(z: nat, n: nat)
    ensures ParseDecimal(Padded(z, n)) == n
  {
    ZerosIgnored(z, Decimal(n));
    DecimalRoundTrip(n);
  }

  lemma PaddedSnoc(z: nat, n: nat, c: char) returns (z': nat)
    requires '0' <= c <= '9'
    ensures Padded(z, n) + [c] == Padded(z', 10 * n + DigitValue(c))
  {
    assert Digit(DigitValue(c)) == c;
    if n == 0 {
      z' := z + 1;
      assert Zeros(z + 1) == Zeros(z) + "0";
    } else {
      z' := z;
      assert Decimal(10 * n + DigitValue(c)) == Decimal(n) + [c];
    }
  }

  lemma OneDigit(c: char)
    requires '0' <= c <= '9'
    ensures ParseDecimal([c]) == DigitValue(c) && [c] == Padded(0, DigitValue(c))
  {
    assert ParseDecimal([c]) == 10 * ParseDecimal("") + DigitValue(c);
    assert Digit(DigitValue(c)) == c;
  }

  lemma ParseSnoc(s: string, c: char)
    ensures ParseDecimal(s + [c]) == 10 * ParseDecimal(s) + DigitValue(c)
  {
    assert (s + [c])[..|s|] == s;
  }

  /** Any text of digits is the number it reads as, written out behind some zeros. */
  lemma {:induction false} DigitsSpellTheirNumber(s: string) returns (z: nat, n: nat)
    requires Digits(s)
    ensures ParseDecimal(s) == n && s == Padded(z, n)
  {
    var front, last := s[..|s| - 1], s[|s| - 1];
    if |s| == 1 {
      assert s == [last];
      OneDigit(last);
      z, n := 0, DigitValue(last);
    } else {
      z, n := DigitsSpellTheirNumber(front);
      ParseSnoc(front, last);
      assert s == front + [last];
      z := PaddedSnoc(z, n, last);
      n := 10 * n + DigitValue(last);
    }
  }

  /** Two lower-case digits for every byte. */
  function Hex(bytes: seq<byte>): (s: string)
    ensures |s| == 2 * |bytes|
    ensures forall i :: 0 <= i < |s| ==> '0' <= s[i] <= '9' || 'a' <= s[i] <= 'f'
  {
    if bytes == [] then "" else [Digit(bytes[0] as nat / 16), Digit(bytes[0] as nat % 16)] + Hex(bytes[1..])
  }

  predicate IsHex(s: string) {
    forall i :: 0 <= i < |s| ==> '0' <= s[i] <= '9' || 'a' <= s[i] <= 'f'
  }

  function ParseHex(s: string): (bytes: seq<byte>)
    requires IsHex(s)
  {
    if |s| < 2 then [] else [(16 * DigitValue(s[0]) + DigitValue(s[1])) as byte] + ParseHex(s[2..])
  }

  lemma {:induction false} HexRoundTrip(bytes: seq<byte>)
    ensures ParseHex(Hex(bytes)) == bytes
  {
    if bytes != [] {
      HexRoundTrip(bytes[1..]);
      assert Hex(bytes)[2..] == Hex(bytes[1..]);
      assert Hex(bytes)[0] == Digit(bytes[0] as nat / 16);
      assert Hex(bytes)[1] == Digit(bytes[0] as nat % 16);
    }
  }
}

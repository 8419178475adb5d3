/**
 * Decimal digit strings: the pieces of Python's string formatting that the
 * model needs (`{n:04d}`-style zero padding of ISO dates, `int` to decimal
 * text, and `str.join`).
 */
module Text {

  predicate IsDigit(c: char) {
    '0' <= c <= '9'
  }

  predicate AllDigits(s: string) {
    forall i :: 0 <= i < |s| ==> IsDigit(s[i])
  }

  function DigitValue(c: char): (d: nat)
    requires IsDigit(c)
    ensures d < 10
  {
    c as int - '0' as int
  }

  function DigitChar(d: nat): (c: char)
    requires d < 10
    ensures IsDigit(c) && DigitValue(c) == d
  {
    ('0' as int + d) as char
  }

  lemma DigitCharOfValue(c: char)
    requires IsDigit(c)
    ensures DigitChar(DigitValue(c)) == c
  {
  }

  function Pow10(n: nat): (p: nat)
    ensures p >= 1
  {
    if n == 0 then 1 else 10 * Pow10(n - 1)
  }

  /** The number a string of decimal digits denotes (most significant digit first). */
  function Value(s: string): nat
    requires AllDigits(s)
  {
    if |s| == 0 then 0 else Value(s[..|s| - 1]) * 10 + DigitValue(s[|s| - 1])
  }

  /** The lowest `width` decimal digits of `n`, zero-padded on the left. */
  function Digits(n: nat, width: nat): (s: string)
    ensures |s| == width && AllDigits(s)
  {
    if width == 0 then [] else Digits(n / 10, width - 1) + [DigitChar(n % 10)]
  }

  /** A number that fits in `width` digits is read back from its padded digits. */
  lemma {:induction false} ValueOfDigits(n: nat, width: nat)
    requires n < Pow10(width)
    ensures Value(Digits(n, width)) == n
  {
    if width > 0 {
      var q, r := n / 10, n % 10;
      var prefix := Digits(q, width - 1);
      var s := prefix + [DigitChar(r)];
      assert Digits(n, width) == s;
      assert s[..|s| - 1] == prefix;
      assert n == 10 * q + r;
      assert q < Pow10(width - 1) by {
        assert Pow10(width) == 10 * Pow10(width - 1);
      }
      ValueOfDigits(q, width - 1);
      assert Value(s) == Value(prefix) * 10 + r;
    }
  }

  /** A digit string is re-printed exactly from the number it denotes, padded to its own length. */
  lemma {:induction false} DigitsOfValue(s: string)
    requires AllDigits(s)
    ensures Value(s) < Pow10(|s|)
    ensures Digits(Value(s), |s|) == s
  {
    if |s| > 0 {
      var p, c := s[..|s| - 1], s[|s| - 1];
      DigitsOfValue(p);
      DigitCharOfValue(c);
      var v, d := Value(p), DigitValue(c);
      assert Value(s) == 10 * v + d;
      assert Value(s) / 10 == v && Value(s) % 10 == d;
      assert Pow10(|s|) == 10 * Pow10(|p|);
      assert p + [c] == s;
    }
  }

  /** Python's `str(n)` for a natural number: decimal digits without leading zeros. */
  function Decimal(n: nat): (s: string)
    ensures |s| >= 1 && AllDigits(s)
    ensures (n > 0 || |s| > 1) ==> s[0] != '0'
  {
    if n < 10 then [DigitChar(n)] else Decimal(n / 10) + [DigitChar(n % 10)]
  }

  /** `int(str(n)) == n`. */
  lemma {:induction false} ValueOfDecimal(n: nat)
    ensures Value(Decimal(n)) == n
  {
    if n >= 10 {
      var s := Decimal(n);
      assert s[..|s| - 1] == Decimal(n / 10);
      ValueOfDecimal(n / 10);
    }
  }

  /** Python's `sep.join(parts)`. */
  function Join(parts: seq<string>, sep: string): string
  {
    if |parts| == 0 then ""
    else if |parts| == 1 then parts[0]
    else parts[0] + sep + Join(parts[1..], sep)
  }

  /** `t` occurs in `s` starting at position `i`. */
  predicate OccursAt(s: string, t: string, i: int) {
    0 <= i <= |s| - |t| && s[i..i + |t|] == t
  }

  /** `t` occurs in `s` as a contiguous substring. */
  ghost predicate Contains(s: string, t: string) {
    exists i :: OccursAt(s, t, i)
  }

  /** Every string contains itself. */
  lemma ContainsSelf(t: string)
    ensures Contains(t, t)
  {
    assert t[0..|t|] == t;
    assert OccursAt(t, t, 0);
  }

  /** A string that ends in `t` contains it. */
  lemma ContainsAtEnd(prefix: string, t: string)
    ensures Contains(prefix + t, t)
  {
    ContainsSelf(t);
    ContainsInSuffix(prefix, t, t);
  }

  lemma ContainsInSuffix(prefix: string, s: string, t: string)
    requires Contains(s, t)
    ensures Contains(prefix + s, t)
  {
    var i :| OccursAt(s, t, i);
    assert (prefix + s)[|prefix| + i..|prefix| + i + |t|] == t;
    assert OccursAt(prefix + s, t, |prefix| + i);
  }

  lemma ContainsInPrefix(s: string, suffix: string, t: string)
    requires Contains(s, t)
    ensures Contains(s + suffix, t)
  {
    var i :| OccursAt(s, t, i);
    assert (s + suffix)[i..i + |t|] == t;
    assert OccursAt(s + suffix, t, i);
  }

  /** Every part of a joined string appears in it. */
  lemma {:induction false} JoinContainsPart(parts: seq<string>, sep: string, k: nat)
    requires k < |parts|
    ensures Contains(Join(parts, sep), parts[k])
  {
    var j := Join(parts, sep);
    if k == 0 {
      assert j[0..|parts[0]|] == parts[0];
      assert OccursAt(j, parts[0], 0);
    } else {
      JoinContainsPart(parts[1..], sep, k - 1);
      ContainsInSuffix(parts[0] + sep, Join(parts[1..], sep), parts[k]);
    }
  }
}

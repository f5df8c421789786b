/**
  C# strings as the uploader handles them: a reference that may be null, or a
  sequence of characters. Also the decimal rendering of integers that string
  interpolation performs, with its inverse.
 */
module Strings {

  /** A C# `string` value: `null`, or a sequence of characters. */
  datatype Str = Null | Str(chars: string)

  const Empty: Str := Str("")

  /** `string.IsNullOrEmpty` */
  predicate IsNullOrEmpty(s: Str) {
    s.Null? || |s.chars| == 0
  }

  /** `char.IsWhiteSpace`: the Unicode space, line and paragraph separators,
      the controls U+0009..U+000D and U+0085. */
  predicate IsWhiteSpace(c: char) {
    var n := c as int;
    (0x09 <= n <= 0x0D) || n == 0x20 || n == 0x85 || n == 0xA0 || n == 0x1680
    || (0x2000 <= n <= 0x200A) || n == 0x2028 || n == 0x2029 || n == 0x202F
    || n == 0x205F || n == 0x3000
  }

  /** Every character of `s` is white space (vacuously so for ""). */
  predicate AllWhiteSpace(s: string)
    decreases |s|
  {
    |s| == 0 || (IsWhiteSpace(s[0]) && AllWhiteSpace(s[1..]))
  }

  /** `string.IsNullOrWhiteSpace` */
  predicate IsNullOrWhiteSpace(s: Str) {
    s.Null? || AllWhiteSpace(s.chars)
  }

  /** The scan above agrees with the character-by-character reading. */
  lemma {:induction false} AllWhiteSpaceMeans(s: string)
    ensures AllWhiteSpace(s) <==> forall i :: 0 <= i < |s| ==> IsWhiteSpace(s[i])
    decreases |s|
  {
    if |s| > 0 {
      AllWhiteSpaceMeans(s[1..]);
      assert forall i :: 1 <= i < |s| ==> s[i] == s[1..][i - 1];
    }
  }

  /** What `$"{s}"` renders: a null string renders as nothing. */
  function Show(s: Str): string {
    if s.Null? then "" else s.chars
  }

  /** String interpolation: the literal and rendered pieces of `$"..."`, joined in order. */
  function Concat(pieces: seq<string>): string
    decreases |pieces|
  {
    if |pieces| == 0 then "" else Concat(pieces[..|pieces| - 1]) + pieces[|pieces| - 1]
  }

  /** Interpolating a sequence of pieces is interpolating both halves of any cut of it. */
  lemma {:induction false} ConcatSplit(pieces: seq<string>, k: nat)
    requires k <= |pieces|
    ensures Concat(pieces) == Concat(pieces[..k]) + Concat(pieces[k..])
    decreases |pieces|
  {
    var n := |pieces|;
    if k == n {
      assert pieces[..k] == pieces;
      assert pieces[k..] == [];
    } else {
      ConcatSplit(pieces[..n - 1], k);
      assert pieces[..n - 1][..k] == pieces[..k];
      assert pieces[..n - 1][k..] == pieces[k..][..n - 1 - k];
      assert pieces[k..][n - 1 - k] == pieces[n - 1];
    }
  }

  /** Interpolations whose pieces have the same lengths agree piece by piece. */
  lemma {:induction false} ConcatSameShape(ps: seq<string>, qs: seq<string>)
    requires |ps| == |qs|
    requires forall i :: 0 <= i < |ps| ==> |ps[i]| == |qs[i]|
    requires Concat(ps) == Concat(qs)
    ensures ps == qs
    decreases |ps|
  {
    if ps != [] {
      var n := |ps|;
      var a, b := Concat(ps[..n - 1]), Concat(qs[..n - 1]);
      var whole := a + ps[n - 1];
      assert whole == b + qs[n - 1];
      assert a == whole[..|a|] && b == whole[..|b|];
      assert ps[n - 1] == whole[|a|..] && qs[n - 1] == whole[|b|..];
      ConcatSameShape(ps[..n - 1], qs[..n - 1]);
      assert ps == ps[..n - 1] + [ps[n - 1]] && qs == qs[..n - 1] + [qs[n - 1]];
    }
  }

  lemma Concat1(a: string)
    ensures Concat([a]) == a
  {
    assert [a][..0] == [];
  }

  lemma Concat2(a: string, b: string)
    ensures Concat([a, b]) == a + b
  {
    assert [a, b][..1] == [a];
    Concat1(a);
  }

  lemma Concat3(a: string, b: string, c: string)
    ensures Concat([a, b, c]) == a + b + c
  {
    assert [a, b, c][..2] == [a, b];
    Concat2(a, b);
  }

  predicate IsDigit(c: char) {
    '0' <= c <= '9'
  }

  function DigitChar(d: nat): (c: char)
    requires d < 10
    ensures IsDigit(c) && c as int - '0' as int == d
  {
    (('0' as int) + d) as char
  }

  /** Decimal digits of a natural number, most significant first, no leading zeros. */
  function NatToString(n: nat): (s: string)
    ensures 1 <= |s|
    ensures forall i :: 0 <= i < |s| ==> IsDigit(s[i])
    decreases n
  {
    if n < 10 then [DigitChar(n)] else NatToString(n / 10) + [DigitChar(n % 10)]
  }

  /** `$"{n}"` for an `int`: an optional minus sign, then the digits. */
  function IntToString(n: int): (s: string)
    ensures 1 <= |s|
    ensures forall i :: 0 <= i < |s| ==> IsDigit(s[i]) || s[i] == '-'
  {
    if n < 0 then "-" + NatToString(-n) else NatToString(n)
  }

  /** The number a string of decimal digits denotes. */
  function DigitsValue(s: string): nat
    requires forall i :: 0 <= i < |s| ==> IsDigit(s[i])
  {
    if |s| == 0 then 0
    else
      assert IsDigit(s[|s| - 1]);
      DigitsValue(s[..|s| - 1]) * 10 + (s[|s| - 1] as int - '0' as int)
  }

  lemma {:induction false} NatToStringRoundTrip(n: nat)
    ensures DigitsValue(NatToString(n)) == n
    decreases n
  {
    if n >= 10 {
      var s := NatToString(n);
      var front := NatToString(n / 10);
      assert s == front + [DigitChar(n % 10)];
      assert s[..|s| - 1] == front;
      NatToStringRoundTrip(n / 10);
    }
  }

  /** The rendering starts with a minus sign exactly for negative numbers. */
  lemma SignOf(n: int)
    ensures IntToString(n)[0] == '-' <==> n < 0
  {
    if n >= 0 {
      assert IsDigit(NatToString(n)[0]);
    }
  }

  /** Two integers render alike only if they are equal. */
  lemma IntToStringInjective(a: int, b: int)
    requires IntToString(a) == IntToString(b)
    ensures a == b
  {
    SignOf(a);
    SignOf(b);
    if a < 0 {
      assert NatToString(-a) == IntToString(a)[1..];
      assert NatToString(-b) == IntToString(b)[1..];
      NatToStringRoundTrip(-a);
      NatToStringRoundTrip(-b);
    } else {
      NatToStringRoundTrip(a);
      NatToStringRoundTrip(b);
    }
  }

  function Pow10(k: nat): (p: nat)
    ensures 1 <= p
  {
    if k == 0 then 1 else 10 * Pow10(k - 1)
  }
}

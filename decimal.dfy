/**
  ASCII decimal digit strings: what `\d`, `str.isdigit()`, `int()` and `str()`
  do on non-negative integers, restricted to the ASCII digits '0'..'9'.
 */
module Decimal {

  predicate IsDigit(c: char) {
    '0' <= c <= '9'
  }

  /** Every character is an ASCII digit (the empty string qualifies). */
  predicate AllDigits(s: string) {
    forall i :: 0 <= i < |s| ==> IsDigit(s[i])
  }

  /** `\d+`: one or more ASCII digits. */
  predicate IsDigits(s: string) {
    |s| > 0 && AllDigits(s)
  }

  /** The form `str(n)` produces: no leading zero unless the number is 0. */
  predicate IsCanonical(s: string) {
    IsDigits(s) && (s[0] == '0' ==> |s| == 1)
  }

  function DigitValue(c: char): (v: nat)
    requires IsDigit(c)
    ensures v < 10
  {
    (c as int) - ('0' as int)
  }

  function DigitChar(v: nat): (c: char)
    requires v < 10
    ensures IsDigit(c) && DigitValue(c) == v
  {
    (('0' as int) + v) as char
  }

  /** `int(s)` for a string of ASCII digits, read most significant digit first. */
  function Value(s: string): (v: nat)
    requires AllDigits(s)
    ensures v == 0 <==> forall i :: 0 <= i < |s| ==> s[i] == '0'
  {
    if s == [] then 0 else Value(s[..|s| - 1]) * 10 + DigitValue(s[|s| - 1])
  }

  /** `str(n)` for a non-negative integer. */
  function ToString(n: nat): (s: string)
    ensures IsCanonical(s)
    ensures n == 0 <==> s == "0"
  {
    if n < 10 then [DigitChar(n)] else ToString(n / 10) + [DigitChar(n % 10)]
  }

  /** `int(str(n)) == n`. */
  lemma {:induction false} ValueOfToString(n: nat)
    ensures Value(ToString(n)) == n
  {
    var s := ToString(n);
    if n < 10 {
      assert s[..|s| - 1] == [];
    } else {
      assert s[..|s| - 1] == ToString(n / 10);
      ValueOfToString(n / 10);
    }
  }

  /** A digit string without a leading zero has a positive value. */
  lemma {:induction false} PositiveValue(s: string)
    requires IsDigits(s) && s[0] != '0'
    ensures Value(s) >= 1
  {
    if |s| > 1 {
      PositiveValue(s[..|s| - 1]);
    }
  }

  /** `str(int(s)) == s` for a canonical digit string. */
  lemma {:induction false} ToStringOfValue(s: string)
    requires IsCanonical(s)
    ensures ToString(Value(s)) == s
  {
    var p, c := s[..|s| - 1], s[|s| - 1];
    if |s| == 1 {
      assert p == [];
      assert DigitChar(DigitValue(c)) == c;
    } else {
      assert p[0] == s[0] != '0';
      PositiveValue(p);
      ToStringOfValue(p);
      var v := Value(s);
      assert v == Value(p) * 10 + DigitValue(c);
      assert v / 10 == Value(p) && v % 10 == DigitValue(c);
      assert DigitChar(DigitValue(c)) == c;
      assert s == p + [c];
    }
  }

  /** Leading zeros do not change the value: `int("0" + s) == int(s)`. */
  lemma {:induction false} ValueIgnoresLeadingZero(s: string)
    requires AllDigits(s)
    ensures Value("0" + s) == Value(s)
  {
    var t := "0" + s;
    if s != [] {
      assert t[..|t| - 1] == "0" + s[..|s| - 1];
      ValueIgnoresLeadingZero(s[..|s| - 1]);
    } else {
      assert t[..|t| - 1] == [];
    }
  }
}

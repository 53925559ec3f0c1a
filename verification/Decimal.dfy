/**
 Canonical decimal text: an optional '-', no leading zero, no "-0". `IntText` is the printer
 (`snprintf` with "%" PRId64 and the digit loop of `add_serial_number` both produce it) and
 `IntValue` the meaning of a text; the two are inverse on canonical texts.
 */
module Decimal {

  predicate IsDigit(c: char) {
    '0' <= c <= '9'
  }

  predicate AllDigits(t: string) {
    forall i :: 0 <= i < |t| ==> IsDigit(t[i])
  }

  function DigitValue(c: char): (d: nat)
    requires IsDigit(c)
  {
    c as int - '0' as int
  }

  function DigitChar(d: nat): (c: char)
    requires d < 10
    ensures IsDigit(c) && DigitValue(c) == d
  {
    ('0' as int + d) as char
  }

  /** The number a digit string denotes, most significant digit first. */
  function Value(t: string): (n: nat)
    requires AllDigits(t)
  {
    if t == [] then 0 else 10 * Value(t[..|t| - 1]) + DigitValue(t[|t| - 1])
  }

  predicate Canonical(t: string) {
    t != [] && AllDigits(t) && (t[0] == '0' ==> |t| == 1)
  }

  function Text(n: nat): (t: string)
    ensures t != []
  {
    if n < 10 then [DigitChar(n)] else Text(n / 10) + [DigitChar(n % 10)]
  }

  predicate CanonicalInt(t: string) {
    if t != [] && t[0] == '-' then Canonical(t[1..]) && t[1] != '0' else Canonical(t)
  }

  function IntValue(t: string): (z: int)
    requires CanonicalInt(t)
  {
    if t[0] == '-' then -(Value(t[1..]) as int) else Value(t)
  }

  function IntText(z: int): (t: string) {
    if z < 0 then "-" + Text(-z) else Text(z)
  }

  lemma {:induction false} TextMeansNumber(n: nat)
    ensures Canonical(Text(n)) && Value(Text(n)) == n
    ensures Text(n)[0] == '0' ==> n == 0
  {
    if n < 10 {
      assert Text(n)[..|Text(n)| - 1] == [];
    } else {
      TextMeansNumber(n / 10);
      assert Text(n)[..|Text(n)| - 1] == Text(n / 10);
    }
  }

  lemma {:induction false} CanonicalPositive(t: string)
    requires Canonical(t) && t[0] != '0'
    ensures Value(t) > 0
  {
    if |t| > 1 {
      CanonicalPositive(t[..|t| - 1]);
    }
  }

  lemma {:induction false} NumberHasOneText(t: string)
    requires Canonical(t)
    ensures Text(Value(t)) == t
  {
    var last := DigitValue(t[|t| - 1]);
    assert t == t[..|t| - 1] + [DigitChar(last)];
    if |t| > 1 {
      var front := t[..|t| - 1];
      CanonicalPositive(front);
      NumberHasOneText(front);
      assert Value(t) / 10 == Value(front) && Value(t) % 10 == last;
    } else {
      assert t[..0] == [];
    }
  }

  /** The value of a longer digit string is at least that of its prefix. */
  lemma {:induction false} PrefixNotLarger(t: string, k: nat)
    requires AllDigits(t) && k <= |t|
    ensures Value(t[..k]) <= Value(t)
  {
    if k < |t| {
      assert t[..|t| - 1][..k] == t[..k];
      PrefixNotLarger(t[..|t| - 1], k);
    } else {
      assert t[..k] == t;
    }
  }

  /** Printing any integer gives a canonical text that denotes it. */
  lemma IntTextMeansNumber(z: int)
    ensures CanonicalInt(IntText(z)) && IntValue(IntText(z)) == z
  {
    if z < 0 {
      TextMeansNumber(-z);
      assert IntText(z)[1..] == Text(-z);
    } else {
      TextMeansNumber(z);
      assert IsDigit(Text(z)[0]);
    }
  }

  /** Every canonical text is the one the printer writes for its value. */
  lemma NumberHasOneIntText(t: string)
    requires CanonicalInt(t)
    ensures IntText(IntValue(t)) == t
  {
    if t[0] == '-' {
      CanonicalPositive(t[1..]);
      NumberHasOneText(t[1..]);
      assert t == "-" + t[1..];
    } else {
      NumberHasOneText(t);
    }
  }
}

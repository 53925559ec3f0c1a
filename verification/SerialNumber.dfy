/**
 X509SerialNumber of ISO 15118-2: decimal text on the JSON side, a sign flag and big-endian
 octets on the EXI side. EXI 1.0 section 7.1.5 codes a negative N as the magnitude |N| - 1;
 RFC 5280 section 4.1.2.2 limits serial numbers to 20 octets.
 */
module SerialNumber {
  import opened Common
  import opened Decimal
  import opened Json
  import opened Octets

  /**
   The widths in octets: the buffer handed to the EXI coder (SERIAL_MAX_OCTETS), the octets that
   may be significant (SERIAL_SIGNIFICANT_OCTETS) and what an EXI integer can hold
   (EXI_BASETYPES_MAX_OCTETS_SUPPORTED). Everything below holds for all consistent widths.
   */
  datatype Widths = Widths(buffer: nat, significant: nat, exi: nat) {
    predicate Consistent() { 7 <= significant <= buffer <= exi }

    /** 256^significant, 2^160 for the widths in use. */
    function Limit(): (n: nat)
      ensures n > 0
    { Pow256(significant) }
  }

  const ISO2: Widths := Widths(25, 20, 29)

  datatype Serial = Serial(negative: bool, octets: seq<byte>)

  /** The integer an EXI signed value stands for (EXI 1.0 section 7.1.5). */
  function Denoted(s: Serial): (z: int) {
    if s.negative then -(Magnitude(s.octets) as int) - 1 else Magnitude(s.octets)
  }

  /** The texts the reader is meant to accept: canonical integers of at most 20 octets. */
  predicate Acceptable(w: Widths, text: string) {
    CanonicalInt(text) && -(w.Limit() as int) < IntValue(text) < w.Limit()
  }

  /** The value of `z` in the 25-octet buffer handed to the EXI coder. */
  function SerialOf(w: Widths, z: int): (s: Serial) {
    Serial(z < 0, ToOctets(w.buffer, if z < 0 then -z - 1 else z))
  }

  function Parsed(w: Widths, text: string): (r: Option<Serial>) {
    if Acceptable(w, text) then Some(SerialOf(w, IntValue(text))) else None
  }

  /** The values the printer is meant to write. */
  predicate Printable(w: Widths, s: Serial) {
    |s.octets| <= w.exi && Magnitude(s.octets) < w.Limit()
  }

  function Printed(w: Widths, s: Serial): (r: Option<string>) {
    if Printable(w, s) then Some(IntText(Denoted(s))) else None
  }

  /** The widths in use are consistent, and their limit is 2^160. */
  lemma WidthsInUse()
    ensures ISO2.Consistent() && ISO2.Limit() == 0x1_0000_0000_0000_0000_0000_0000_0000_0000_0000_0000
  {
    assert Pow256(5) == 0x100_0000_0000;
    assert Pow256(10) == Pow256(5) * 0x100_0000_0000;
    assert Pow256(15) == Pow256(10) * 0x100_0000_0000;
    assert Pow256(20) == Pow256(15) * 0x100_0000_0000;
  }

  lemma {:induction false} Pow256Monotone(j: nat, k: nat)
    requires j <= k
    ensures Pow256(j) <= Pow256(k)
  {
    if j < k { Pow256Monotone(j, k - 1); }
  }

  function Pow10(k: nat): (p: nat)
    ensures p > 0
  {
    if k == 0 then 1 else 10 * Pow10(k - 1)
  }

  /** Three digits per octet are always enough. */
  lemma {:induction false} ThreeDigitsPerOctet(k: nat)
    ensures Pow256(k) <= Pow10(3 * k)
  {
    if k > 0 {
      ThreeDigitsPerOctet(k - 1);
      assert Pow10(3 * k) == 10 * Pow10(3 * k - 1) == 100 * Pow10(3 * k - 2) == 1000 * Pow10(3 * (k - 1));
    }
  }

  /** A magnitude is below 256^k exactly when all but its last `k` octets are zero. */
  lemma HighOctetsZero(s: seq<byte>, k: nat)
    requires k <= |s|
    ensures Magnitude(s) < Pow256(k) <==> forall i :: 0 <= i < |s| - k ==> s[i] == 0
  {}

  /** The digit loop; a carry out of the buffer means a number of more than 20 octets. */
  method ReadDigits(w: Widths, p: string, magnitude: array<byte>) returns (ok: bool)
    requires w.Consistent() && magnitude.Length == w.buffer && Magnitude(magnitude[..]) == 0
    modifies magnitude
    ensures ok ==> AllDigits(p) && Magnitude(magnitude[..]) == Value(p)
    ensures !ok ==> AllDigits(p) ==> Value(p) >= w.Limit()
  {
    var j := 0;
    while j < |p|
      invariant 0 <= j <= |p|
      invariant AllDigits(p[..j]) && Magnitude(magnitude[..]) == Value(p[..j])
    {
      if !IsDigit(p[j]) {
        return false;
      }
      assert p[..j + 1][..j] == p[..j];
      var carry := ScaleByTen(magnitude, DigitValue(p[j]));
      j := j + 1;
      if carry != 0 {
        TooLong(w, p, j, carry, Magnitude(magnitude[..]));
        return false;
      }
    }
    assert p[..j] == p;
    ok := true;
  }

  /** Whether the first `n` octets are all zero. */
  method LeadingOctetsZero(magnitude: array<byte>, n: nat) returns (zero: bool)
    requires n <= magnitude.Length
    ensures zero <==> Magnitude(magnitude[..]) < Pow256(magnitude.Length - n)
  {
    HighOctetsZero(magnitude[..], magnitude.Length - n);
    var i := 0;
    while i < n
      invariant 0 <= i <= n
      invariant forall k :: 0 <= k < i ==> magnitude[..][k] == 0
    {
      if magnitude[i] != 0 {
        assert magnitude[..][i] != 0;
        return false;
      }
      i := i + 1;
    }
    zero := true;
  }

  /** The text part of `item_to_serial_number`. */
  method TextToSerial(w: Widths, text: string) returns (r: Option<Serial>)
    requires w.Consistent()
    ensures r == Parsed(w, text)
  {
    hide Magnitude, Value, ToOctets;
    var negative := text != "" && text[0] == '-';
    var p := if negative then text[1..] else text;
    if p == "" || (p[0] == '0' && |p| > 1) {
      return None;
    }
    assert CanonicalInt(text) <==> AllDigits(p) && !(negative && p[0] == '0');
    var magnitude := new byte[w.buffer](_ => 0);
    HighOctetsZero(magnitude[..], 0);
    var ok := ReadDigits(w, p, magnitude);
    if !ok {
      return None;
    }
    ParsedFromMagnitude(w, text, negative, p);
    ok := LeadingOctetsZero(magnitude, w.buffer - w.significant);
    if !ok {
      return None;
    }
    if negative {
      var zero := LeadingOctetsZero(magnitude, w.buffer);
      if zero {
        return None;
      }
      Decrement(magnitude);
    }
    OctetsUnique(magnitude[..]);
    r := Some(Serial(negative, magnitude[..]));
  }

  /** What the checks after the digit loop have to decide. */
  lemma ParsedFromMagnitude(w: Widths, text: string, negative: bool, p: string)
    requires negative <==> text != "" && text[0] == '-'
    requires p == if negative then text[1..] else text
    requires Canonical(p)
    ensures var m := Value(p);
            Parsed(w, text) == if m < w.Limit() && !(negative && m == 0)
                               then Some(Serial(negative, ToOctets(w.buffer, if negative then m - 1 else m)))
                               else None
  {
    if p[0] != '0' { CanonicalPositive(p); } else { assert p[..0] == []; }
  }

  /** A carry out of the 25 octets means that the text denotes at least 2^160. */
  lemma TooLong(w: Widths, p: string, j: nat, carry: nat, m: nat)
    requires w.Consistent() && 0 < j <= |p| && AllDigits(p[..j]) && carry > 0
    ensures m + carry * Pow256(w.buffer) == Value(p[..j]) && AllDigits(p) ==> Value(p) >= w.Limit()
  {
    AtLeastOnce(carry, Pow256(w.buffer));
    Pow256Monotone(w.significant, w.buffer);
    if AllDigits(p) { PrefixNotLarger(p, j); }
  }

  lemma AtLeastOnce(c: nat, x: nat)
    requires c > 0
    ensures c * x >= x
  {}

  function Reversed(s: string): (t: string)
    ensures |t| == |s|
  {
    if s == [] then [] else [s[|s| - 1]] + Reversed(s[..|s| - 1])
  }

  /**
   `add_serial_number`: divides the magnitude by ten until nothing is left. Every array access
   is in bounds, so the digits never leave `reversed`.
   */
  method SerialToText(w: Widths, s: Serial) returns (r: Option<string>)
    requires w.Consistent()
    ensures r == Printed(w, s)
  {
    hide Magnitude, Reversed;
    var count := |s.octets|;
    var significant, i := count, 0;
    while i < count && s.octets[i] == 0
      invariant 0 <= i <= count && significant == count - i
      invariant forall k :: 0 <= k < i ==> s.octets[k] == 0
    {
      i, significant := i + 1, significant - 1;
    }
    LeadingZeros(w, s.octets, i);
    if count > w.exi || significant > w.significant {
      return None;
    }
    var magnitude := PaddedCopy(s.octets, w.exi + 1);
    Pow256Monotone(w.significant, w.exi);
    if s.negative {
      Increment(magnitude);
    }
    var reversed := new char[3 * (w.exi + 1) + 2];
    var n := DigitsReversed(magnitude, reversed);
    var digits := InReadingOrder(s.negative, reversed, n);
    r := Some(digits);
  }

  /** The octets, right-aligned in a zeroed buffer. */
  method PaddedCopy(octets: seq<byte>, size: nat) returns (a: array<byte>)
    requires |octets| <= size
    ensures fresh(a) && a.Length == size && Magnitude(a[..]) == Magnitude(octets)
  {
    a := new byte[size](_ => 0);
    forall k | 0 <= k < |octets| {
      a[size - |octets| + k] := octets[k];
    }
    assert a[..] == a[..size - |octets|] + octets;
    MagnitudePadded(a[..size - |octets|], octets);
  }

  /** `significant` octets after the zeros decide whether the magnitude is below 2^160. */
  lemma LeadingZeros(w: Widths, octets: seq<byte>, i: nat)
    requires w.Consistent()
    requires i <= |octets| && forall k :: 0 <= k < i ==> octets[k] == 0
    requires i < |octets| ==> octets[i] != 0
    ensures |octets| - i <= w.significant <==> Magnitude(octets) < w.Limit()
  {
    if |octets| - i <= w.significant {
      HighOctetsZero(octets, |octets| - i);
      Pow256Monotone(|octets| - i, w.significant);
    } else {
      HighOctetsZero(octets, w.significant);
    }
  }

  /** The division loop: the digits, least significant first, fit in three characters per octet. */
  method DigitsReversed(magnitude: array<byte>, reversed: array<char>) returns (n: nat)
    requires reversed.Length >= 3 * magnitude.Length + 2
    modifies magnitude, reversed
    ensures n <= 3 * magnitude.Length + 1
    ensures Reversed(reversed[..n]) == Text(Magnitude(old(magnitude[..])))
  {
    hide Magnitude, Text, DigitChar;
    ghost var total := Magnitude(magnitude[..]);
    ghost var most := 3 * magnitude.Length;
    n := 0;
    MagnitudeBound(magnitude[..]);
    ThreeDigitsPerOctet(magnitude.Length);
    var nonzero := true;
    while nonzero
      invariant 0 <= n <= most + 1
      invariant nonzero ==> n <= most && Magnitude(magnitude[..]) < Pow10(most - n)
      invariant nonzero ==> Text(total) == Text(Magnitude(magnitude[..])) + Reversed(reversed[..n])
      invariant !nonzero ==> Text(total) == Reversed(reversed[..n])
      decreases most + 1 - n, nonzero
    {
      ghost var m, front := Magnitude(magnitude[..]), reversed[..n];
      var remainder;
      remainder, nonzero := DivideByTen(magnitude);
      reversed[n] := DigitChar(remainder);
      n := n + 1;
      assert reversed[..n] == front + [DigitChar(remainder)];
      OneMoreDigit(m, Magnitude(magnitude[..]), remainder, front);
    }
  }

  lemma OneMoreDigit(m: nat, quotient: nat, remainder: nat, front: string)
    requires m == 10 * quotient + remainder && remainder < 10
    ensures Reversed(front + [DigitChar(remainder)]) == [DigitChar(remainder)] + Reversed(front)
    ensures Text(m) + Reversed(front) ==
            (if quotient != 0 then Text(quotient) else "") + Reversed(front + [DigitChar(remainder)])
  {}

  lemma ReversedEmpty()
    ensures Reversed("") == ""
  {}

  /** Moving the last of the remaining digits to the front keeps the whole. */
  lemma ReversedStep(front: string, r: string, n: nat)
    requires 0 < n <= |r|
    ensures front + Reversed(r[..n]) == (front + [r[n - 1]]) + Reversed(r[..n - 1])
  {
    assert r[..n][..n - 1] == r[..n - 1];
  }

  /** The sign and the digits in reading order; `buffer` is `digits` without its terminator. */
  method InReadingOrder(negative: bool, reversed: array<char>, count: nat) returns (digits: string)
    requires count < reversed.Length
    ensures digits == if negative then "-" + Reversed(reversed[..count]) else Reversed(reversed[..count])
  {
    hide Reversed;
    var buffer := new char[reversed.Length + 1];
    var k, n := 0, count;
    ghost var r, front := reversed[..count], "";
    if negative {
      buffer[0] := '-';
      k, front := 1, "-";
    }
    ghost var whole := front + Reversed(r[..n]);
    assert r[..n] == r && "" + Reversed(r) == Reversed(r);
    while n > 0
      invariant 0 <= n <= count && k == |front| && k + n <= count + 1 && buffer[..k] == front
      invariant whole == front + Reversed(r[..n])
    {
      ReversedStep(front, r, n);
      n := n - 1;
      buffer[k] := reversed[n];
      assert buffer[..k + 1] == front + [r[n]];
      k, front := k + 1, front + [r[n]];
    }
    ReversedEmpty();
    digits := buffer[..k];
    assert r[..0] == "" && front + "" == front;
  }

  /** `item_to_serial_number`: a JSON string, or a JSON number that a double holds exactly. */
  method ItemToSerial(w: Widths, item: Json) returns (r: Option<Serial>)
    requires w.Consistent()
    ensures r == match item
                 case String(text) => Parsed(w, text)
                 case Number(_) =>
                   var z := ItemToInteger(item, -SAFE_INTEGER_MAX, SAFE_INTEGER_MAX);
                   if z.None? then None else Some(SerialOf(w, z.value))
                 case _ => None
  {
    if item.String? {
      r := TextToSerial(w, item.text);
    } else if item.Number? {
      var z := ItemToInteger(item, -SAFE_INTEGER_MAX, SAFE_INTEGER_MAX);
      if z.None? {
        return None;
      }
      IntTextMeansNumber(z.value);
      SafeIntegerFits(w);
      r := TextToSerial(w, IntText(z.value));
    } else {
      r := None;
    }
  }

  lemma SafeIntegerFits(w: Widths)
    requires w.Consistent()
    ensures SAFE_INTEGER_MAX < w.Limit()
  {
    Pow256Monotone(7, w.significant);
    assert Pow256(7) == 256 * 256 * 256 * 256 * 256 * 256 * 256;
  }

  /** The octets the reader stores denote the number in the text. */
  lemma ParsedDenotesText(w: Widths, text: string)
    requires w.Consistent()
    requires Acceptable(w, text)
    ensures Denoted(SerialOf(w, IntValue(text))) == IntValue(text)
    ensures Printable(w, SerialOf(w, IntValue(text)))
  {
    var z := IntValue(text);
    Pow256Monotone(w.significant, w.buffer);
    OctetsDenote(w.buffer, if z < 0 then -z - 1 else z);
  }

  /** Printing what was read gives the text back. */
  lemma PrintAfterParse(w: Widths, text: string)
    requires w.Consistent()
    requires Parsed(w, text).Some?
    ensures Printed(w, Parsed(w, text).value) == Some(text)
  {
    ParsedDenotesText(w, text);
    NumberHasOneIntText(text);
  }

  /**
   Reading what was printed gives the same number, and is refused for -2^160 only: the printer's
   domain is the parser's plus this one value.
   */
  lemma ParseAfterPrint(w: Widths, s: Serial)
    requires w.Consistent()
    requires Printable(w, s)
    ensures var back := Parsed(w, Printed(w, s).value);
            && (back.Some? <==> Denoted(s) != -(w.Limit() as int))
            && (back.Some? ==> Denoted(back.value) == Denoted(s) && back.value.negative == s.negative)
  {
    IntTextMeansNumber(Denoted(s));
    if Denoted(s) != -(w.Limit() as int) {
      ParsedDenotesText(w, IntText(Denoted(s)));
    }
  }

  /** -2^160 is printable. */
  lemma LowestPrintable(w: Widths) returns (s: Serial)
    requires w.Consistent()
    ensures Printable(w, s) && Denoted(s) == -(w.Limit() as int) && Parsed(w, Printed(w, s).value).None?
  {
    s := Serial(true, ToOctets(w.significant, w.Limit() - 1));
    OctetsDenote(w.significant, w.Limit() - 1);
    ParseAfterPrint(w, s);
  }
}

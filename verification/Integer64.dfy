/**
 64-bit integers that a JSON number cannot hold exactly. They travel as decimal text; the reader
 accumulates digits in a `uint64_t`, whose wrap-around is written out here.
 */
module Integer64 {
  import opened Common
  import opened Decimal
  import opened Json

  const TWO63: nat := 0x8000_0000_0000_0000
  const TWO64: nat := 0x1_0000_0000_0000_0000

  type uint64 = u: int | 0 <= u < TWO64

  predicate IsInt64(z: int) { -(TWO63 as int) <= z < TWO63 }

  /** Conversion of an unsigned to a signed 64-bit value (two's complement). */
  function ToSigned(u: uint64): (z: int)
    ensures IsInt64(z)
  {
    if u < TWO63 then u else u - TWO64
  }

  /** What the text stands for if its magnitude is within `max`; the sign is kept apart. */
  function Magnitude(text: string, max: nat): (r: Option<(bool, nat)>) {
    if CanonicalInt(text) && -(max as int) <= IntValue(text) <= max
    then Some((IntValue(text) < 0, if IntValue(text) < 0 then -IntValue(text) else IntValue(text)))
    else None
  }

  lemma NextDigit(p: string, j: nat)
    requires j < |p| && AllDigits(p[..j]) && IsDigit(p[j])
    ensures AllDigits(p[..j + 1]) && Value(p[..j + 1]) == 10 * Value(p[..j]) + DigitValue(p[j])
  {
    assert p[..j + 1][..j] == p[..j];
  }

  lemma NoDigits(p: string)
    ensures AllDigits(p[..0]) && Value(p[..0]) == 0
  {}

  /** `text_to_magnitude`. No multiplication wraps: the overflow test comes first. */
  method TextToMagnitude(text: string, max: uint64) returns (r: Option<(bool, uint64)>)
    requires max >= 9
    ensures r == Magnitude(text, max)
  {
    var negative := text != "" && text[0] == '-';
    var p := if negative then text[1..] else text;
    if p == "" || !IsDigit(p[0]) || (p[0] == '0' && |p| > 1) || (negative && p[0] == '0') {
      return None;
    }
    assert CanonicalInt(text) <==> AllDigits(p);
    hide Value, Canonical;
    NoDigits(p);
    var magnitude: uint64, j := 0, 0;
    while j < |p|
      invariant 0 <= j <= |p| && AllDigits(p[..j])
      invariant magnitude == Value(p[..j]) <= max
    {
      if !IsDigit(p[j]) {
        return None;
      }
      var digit := DigitValue(p[j]);
      NextDigit(p, j);
      if magnitude > (max - digit) / 10 {
        if AllDigits(p) { PrefixNotLarger(p, j + 1); }
        return None;
      }
      magnitude := (magnitude * 10 + digit) % TWO64;
      j := j + 1;
    }
    assert p[..j] == p;
    if negative { CanonicalPositive(p); }
    r := Some((negative, magnitude));
  }

  /** The values `read_int64` and `read_uint64` are meant to deliver. */
  function Int64Of(item: Json): (r: Option<int>) {
    match item
    case Number(_) => ItemToInteger(item, -SAFE_INTEGER_MAX, SAFE_INTEGER_MAX)
    case String(text) => if CanonicalInt(text) && IsInt64(IntValue(text)) then Some(IntValue(text)) else None
    case _ => None
  }

  function Uint64Of(item: Json): (r: Option<int>) {
    match item
    case Number(_) => ItemToInteger(item, 0, SAFE_INTEGER_MAX)
    case String(text) =>
      if CanonicalInt(text) && 0 <= IntValue(text) < TWO64 then Some(IntValue(text)) else None
    case _ => None
  }

  method ReadInt64(parent: Json, key: string) returns (r: Option<int>)
    ensures r == match GetItem(parent, key) case None => None case Some(item) => Int64Of(item)
  {
    var item := GetItem(parent, key);
    if item.None? {
      return None;
    }
    if item.value.Number? {
      return ItemToInteger(item.value, -SAFE_INTEGER_MAX, SAFE_INTEGER_MAX);
    }
    if !item.value.String? {
      return None;
    }
    var m := TextToMagnitude(item.value.text, TWO63);
    if m.None? || (!m.value.0 && m.value.1 > TWO63 - 1) {
      return None;
    }
    r := Some(if m.value.0 then ToSigned((0 - m.value.1) % TWO64) else ToSigned(m.value.1));
  }

  method ReadUint64(parent: Json, key: string) returns (r: Option<int>)
    ensures r == match GetItem(parent, key) case None => None case Some(item) => Uint64Of(item)
  {
    var item := GetItem(parent, key);
    if item.None? {
      return None;
    }
    if item.value.Number? {
      return ItemToInteger(item.value, 0, SAFE_INTEGER_MAX);
    }
    if !item.value.String? {
      return None;
    }
    var m := TextToMagnitude(item.value.text, TWO64 - 1);
    if m.None? || m.value.0 {
      return None;
    }
    r := Some(m.value.1);
  }

  /** Every 64-bit value survives printing and reading, -2^63 included. */
  lemma Int64RoundTrip(z: int)
    ensures IsInt64(z) <==> Int64Of(String(IntText(z))) == Some(z)
    ensures 0 <= z < TWO64 <==> Uint64Of(String(IntText(z))) == Some(z)
  {
    IntTextMeansNumber(z);
  }

  /** A text is accepted only if it is the one the printer writes for the value read. */
  lemma Int64TextUnique(text: string, z: int)
    ensures Int64Of(String(text)) == Some(z) <==> IsInt64(z) && text == IntText(z)
    ensures Uint64Of(String(text)) == Some(z) <==> 0 <= z < TWO64 && text == IntText(z)
  {
    Int64RoundTrip(z);
    if CanonicalInt(text) { NumberHasOneIntText(text); }
  }
}

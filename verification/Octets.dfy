/**
 Big-endian base-256 magnitudes and the in-place loops that scale, divide, increment and
 decrement them (the inner loops of `item_to_serial_number` and `add_serial_number`).
 */
module Octets {
  import opened Common

  function Pow256(k: nat): (p: nat)
    ensures p > 0
  {
    if k == 0 then 1 else 256 * Pow256(k - 1)
  }

  /** The number a big-endian octet string denotes. */
  function Magnitude(s: seq<byte>): (n: nat) {
    if s == [] then 0 else 256 * Magnitude(s[..|s| - 1]) + s[|s| - 1]
  }

  /** The `k` least significant base-256 digits of `n`, big-endian. */
  function ToOctets(k: nat, n: nat): (s: seq<byte>)
    ensures |s| == k
  {
    if k == 0 then [] else ToOctets(k - 1, n / 256) + [n % 256]
  }

  lemma {:induction false} MagnitudeCons(b: byte, s: seq<byte>)
    ensures Magnitude([b] + s) == b * Pow256(|s|) + Magnitude(s)
  {
    var t := [b] + s;
    if s == [] {
      assert t[..|t| - 1] == [];
    } else {
      assert t[..|t| - 1] == [b] + s[..|s| - 1];
      MagnitudeCons(b, s[..|s| - 1]);
    }
  }

  lemma MagnitudeSnoc(s: seq<byte>, b: byte)
    ensures Magnitude(s + [b]) == 256 * Magnitude(s) + b
  {}

  lemma {:induction false} MagnitudeBound(s: seq<byte>)
    ensures Magnitude(s) < Pow256(|s|)
  {
    if s != [] { MagnitudeBound(s[..|s| - 1]); }
  }

  /** Leading zero octets do not change the magnitude. */
  lemma {:induction false} MagnitudePadded(z: seq<byte>, s: seq<byte>)
    requires forall i :: 0 <= i < |z| ==> z[i] == 0
    ensures Magnitude(z + s) == Magnitude(s)
  {
    if z == [] {
      assert z + s == s;
    } else {
      assert z + s == [z[0]] + (z[1..] + s);
      MagnitudeCons(z[0], z[1..] + s);
      MagnitudePadded(z[1..], s);
    }
  }

  lemma {:induction false} OctetsDenote(k: nat, n: nat)
    requires n < Pow256(k)
    ensures Magnitude(ToOctets(k, n)) == n
  {
    if k > 0 {
      OctetsDenote(k - 1, n / 256);
      MagnitudeSnoc(ToOctets(k - 1, n / 256), n % 256);
    }
  }

  /** Fixed-width octet strings are unique. */
  lemma {:induction false} OctetsUnique(s: seq<byte>)
    ensures ToOctets(|s|, Magnitude(s)) == s
  {
    if s != [] {
      var front := s[..|s| - 1];
      OctetsUnique(front);
      assert Magnitude(s) / 256 == Magnitude(front) && Magnitude(s) % 256 == s[|s| - 1];
      assert s == front + [s[|s| - 1]];
    }
  }

  /** `magnitude * 10 + digit` over the whole array, least significant octet first. */
  method ScaleByTen(a: array<byte>, digit: nat) returns (carry: nat)
    requires digit < 10
    modifies a
    ensures Magnitude(a[..]) + carry * Pow256(a.Length) == 10 * Magnitude(old(a[..])) + digit
  {
    carry := digit;
    ghost var was := a[..];
    var i := a.Length;
    while i > 0
      invariant 0 <= i <= a.Length && carry < 10
      invariant a[..i] == was[..i]
      invariant Magnitude(a[i..]) + carry * Pow256(a.Length - i) == 10 * Magnitude(was[i..]) + digit
    {
      ghost var tail, carried, p := a[i..], carry, Pow256(a.Length - i);
      i := i - 1;
      var v := a[i] * 10 + carry;
      a[i], carry := v % 256, v / 256;
      SplitAt(a[..], i, tail);
      SplitAt(was, i, was[i + 1..]);
      ScaleStep(a[i], was[i], carry, carried, p);
    }
    assert a[0..] == a[..] && was[0..] == was;
  }

  lemma ScaleStep(new_: int, old_: int, carry: int, carried: int, p: int)
    requires new_ + 256 * carry == 10 * old_ + carried
    ensures new_ * p + carry * (256 * p) == 10 * (old_ * p) + carried * p
  {}

  /** Subtracts one, borrowing from the octets to the left; zero wraps around. */
  method Decrement(a: array<byte>)
    modifies a
    ensures Magnitude(old(a[..])) > 0 ==> Magnitude(a[..]) == Magnitude(old(a[..])) - 1
    ensures Magnitude(old(a[..])) == 0 ==> Magnitude(a[..]) == Pow256(a.Length) - 1
  {
    hide Magnitude, Pow256;
    ghost var was := a[..];
    Borrowed(a[..], was);
    var i := a.Length;
    while i > 0
      invariant 0 <= i <= a.Length
      invariant a[..i] == was[..i] && Rolled(a[i..], was[i..])
    {
      ghost var tail := a[i..];
      i := i - 1;
      var v: int := a[i];
      a[i] := if v == 0 then 255 else v - 1;
      assert a[i..] == [a[i]] + tail && was[i..] == [was[i]] + was[i + 1..];
      if v != 0 {
        Lowered(a[..], was, i);
        return;
      }
      RolledCons(tail, was[i + 1..]);
    }
    assert was[0..] == was && a[0..] == a[..];
  }

  /** Adds one, carrying into the octets to the left; the largest magnitude wraps around. */
  method Increment(a: array<byte>)
    modifies a
    ensures var n := Magnitude(old(a[..])) + 1;
            Magnitude(a[..]) == if n < Pow256(a.Length) then n else 0
  {
    hide Magnitude, Pow256;
    ghost var was := a[..];
    Borrowed(was, a[..]);
    var i := a.Length;
    while i > 0
      invariant 0 <= i <= a.Length
      invariant a[..i] == was[..i] && Rolled(was[i..], a[i..])
    {
      ghost var tail := a[i..];
      i := i - 1;
      var v: int := a[i];
      a[i] := if v == 255 then 0 else v + 1;
      assert a[i..] == [a[i]] + tail && was[i..] == [was[i]] + was[i + 1..];
      if v != 255 {
        Lowered(was, a[..], i);
        MagnitudeBound(a[..]);
        return;
      }
      RolledCons(was[i + 1..], tail);
    }
    assert was[0..] == was && a[0..] == a[..];
  }

  /** `high` is the largest magnitude of its length and `low` is zero. */
  predicate Rolled(high: seq<byte>, low: seq<byte>) {
    |high| == |low| && Magnitude(low) == 0 && Magnitude(high) == Pow256(|high|) - 1
  }

  lemma Borrowed(high: seq<byte>, low: seq<byte>)
    requires |high| == |low|
    ensures Rolled(high[|high|..], low[|low|..])
  {}

  lemma RolledCons(high: seq<byte>, low: seq<byte>)
    requires Rolled(high, low)
    ensures Rolled([255] + high, [0] + low)
  {
    MagnitudeCons(255, high);
    MagnitudeCons(0, low);
    hide Magnitude;
  }

  /** Lowering one octet and rolling over the zeros to its right subtracts one. */
  lemma Lowered(s: seq<byte>, t: seq<byte>, i: nat)
    requires |s| == |t| && i < |s| && s[..i] == t[..i] && t[i] as int == s[i] as int + 1
    requires Rolled(s[i + 1..], t[i + 1..])
    ensures Magnitude(s) == Magnitude(t) - 1
  {
    hide Magnitude, Pow256;
    SplitAt(s, i, s[i + 1..]);
    SplitAt(t, i, t[i + 1..]);
    LowerByOne(t[i], Pow256(|s| - i - 1));
    SameFront(s, t, i);
  }

  lemma SplitAt(s: seq<byte>, i: nat, tail: seq<byte>)
    requires i < |s| && tail == s[i + 1..]
    ensures Magnitude(s[i..]) == s[i] * Pow256(|tail|) + Magnitude(tail)
  {
    assert s[i..] == [s[i]] + tail;
    MagnitudeCons(s[i], tail);
  }

  lemma LowerByOne(x: int, p: int)
    ensures (x - 1) * p == x * p - p
  {}

  /** Two equally long magnitudes with the same front differ as their tails do. */
  lemma {:induction false} SameFront(s: seq<byte>, t: seq<byte>, i: nat)
    requires |s| == |t| && i <= |s| && s[..i] == t[..i]
    ensures Magnitude(s) - Magnitude(t) == Magnitude(s[i..]) - Magnitude(t[i..])
  {
    if i == 0 {
      assert s[0..] == s && t[0..] == t;
    } else {
      assert s == [s[0]] + s[1..] && t == [t[0]] + t[1..];
      MagnitudeCons(s[0], s[1..]);
      MagnitudeCons(t[0], t[1..]);
      assert s[0] == s[..i][0] == t[..i][0] == t[0];
      assert s[1..][..i - 1] == s[..i][1..] == t[..i][1..] == t[1..][..i - 1];
      SameFront(s[1..], t[1..], i - 1);
      assert s[1..][i - 1..] == s[i..] && t[1..][i - 1..] == t[i..];
    }
  }

  /** Divides by ten from the most significant octet on. */
  method DivideByTen(a: array<byte>) returns (remainder: nat, nonzero: bool)
    modifies a
    ensures Magnitude(old(a[..])) == 10 * Magnitude(a[..]) + remainder && remainder < 10
    ensures nonzero <==> Magnitude(a[..]) != 0
  {
    remainder, nonzero := 0, false;
    ghost var was := a[..];
    var i := 0;
    while i < a.Length
      invariant 0 <= i <= a.Length && remainder < 10
      invariant a[i..] == was[i..]
      invariant Magnitude(was[..i]) == 10 * Magnitude(a[..i]) + remainder
      invariant nonzero <==> Magnitude(a[..i]) != 0
    {
      ghost var front := a[..i];
      var v := remainder * 256 + a[i];
      assert was[..i + 1] == was[..i] + [was[i]] && was[i] == a[i];
      a[i], remainder := v / 10, v % 10;
      assert a[..i + 1] == front + [a[i]];
      MagnitudeSnoc(front, a[i]);
      MagnitudeSnoc(was[..i], was[i]);
      nonzero := nonzero || a[i] != 0;
      i := i + 1;
    }
    assert a[..i] == a[..] && was[..i] == was;
  }
}

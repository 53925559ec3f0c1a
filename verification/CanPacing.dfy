/**
 The token bucket that paces CAN datagrams to the bus, in bits and seconds. The bucket is filled
 from the full bitrate at a reset and capped at 95 % of it by every flush.
 */
module CanPacing {

  const UTILISATION_PCT := 95.0
  const BUCKET_MS := 15.0
  const NANOSECOND := 0.000000001
  const MIN_WAIT := 0.0001

  /** The refill rate in bit/s and the size of the bucket in bits. */
  datatype Pace = Pace(rate: real, capacity: real)

  function PaceOf(bitrate: nat): (p: Pace) {
    var rate := bitrate as real * UTILISATION_PCT / 100.0;
    Pace(rate, rate * BUCKET_MS / 1000.0)
  }

  /** One datagram let through by the bucket. */
  datatype Shipment = Shipment(time: real, bits: nat)

  /** The bucket, with the shipments it has let through since the last reset. */
  datatype Bucket = Bucket(tokens: real, last: real, shipped: seq<Shipment>)

  function Reset(bitrate: nat, now: real): (b: Bucket) { Bucket(bitrate as real * BUCKET_MS / 1000.0, now, []) }

  function Min(x: real, y: real): (m: real) { if x <= y then x else y }

  function Earned(p: Pace, seconds: real): (bits: real) { seconds * p.rate }

  function Refill(b: Bucket, p: Pace, now: real): (c: Bucket) {
    b.(tokens := Min(p.capacity, b.tokens + Earned(p, now - b.last)), last := now)
  }

  function Spend(b: Bucket, bits: nat): (c: Bucket) {
    b.(tokens := b.tokens - bits as real, shipped := b.shipped + [Shipment(b.last, bits)])
  }

  /** The hold-off of a batch that lacks tokens: truncated to nanoseconds, and at least 100 us. */
  function Wait(missing: real, rate: real): (w: real)
    requires rate > 0.0
  {
    var truncated := (missing / rate / NANOSECOND).Floor as real * NANOSECOND;
    if truncated >= MIN_WAIT then truncated else MIN_WAIT
  }

  // ---- The token-bucket theorem ----

  function Sum(shipped: seq<Shipment>): (n: nat) {
    if shipped == [] then 0 else Sum(shipped[..|shipped| - 1]) + shipped[|shipped| - 1].bits
  }

  /** The bits shipped from shipment i to shipment j fit into a full bucket and the refill in between. */
  ghost predicate WindowFits(shipped: seq<Shipment>, p: Pace, i: nat, j: nat)
    requires i <= j < |shipped|
  {
    Sum(shipped[i..j + 1]) as real <= p.capacity + Earned(p, shipped[j].time - shipped[i].time)
  }

  ghost predicate Conforms(shipped: seq<Shipment>, p: Pace) {
    forall i, j :: 0 <= i <= j < |shipped| ==> WindowFits(shipped, p, i, j)
  }

  /** What shipped since shipment i, and what is left, fits into a full bucket and the refill since then. */
  ghost predicate CoveredFrom(b: Bucket, p: Pace, i: nat)
    requires i < |b.shipped|
  {
    Sum(b.shipped[i..]) as real + b.tokens <= p.capacity + Earned(p, b.last - b.shipped[i].time)
  }

  ghost predicate Inv(b: Bucket, p: Pace) {
    b.tokens >= 0.0 && (forall i :: 0 <= i < |b.shipped| ==> CoveredFrom(b, p, i)) && Conforms(b.shipped, p)
  }

  lemma ResetInv(bitrate: nat, now: real)
    ensures Inv(Reset(bitrate, now), PaceOf(bitrate))
  {}

  lemma RefillKeeps(b: Bucket, p: Pace, now: real)
    requires Inv(b, p) && now >= b.last && p.rate >= 0.0 && p.capacity >= 0.0
    ensures Inv(Refill(b, p, now), p) && Refill(b, p, now).tokens <= p.capacity
  {
    var c := Refill(b, p, now);
    EarnedMonotone(p, 0.0, now - b.last);
    forall i | 0 <= i < |c.shipped|
      ensures CoveredFrom(c, p, i)
    {
      assert CoveredFrom(b, p, i);
      EarnedAdds(p, b.last - b.shipped[i].time, now - b.last);
      hide Earned;
    }
    hide Earned;
  }

  lemma EarnedMonotone(p: Pace, x: real, y: real)
    requires x <= y && p.rate >= 0.0
    ensures Earned(p, 0.0) == 0.0 && Earned(p, x) <= Earned(p, y)
    ensures x < y && p.rate > 0.0 ==> Earned(p, x) < Earned(p, y)
  {}

  lemma EarnedAdds(p: Pace, x: real, y: real)
    ensures Earned(p, x + y) == Earned(p, x) + Earned(p, y)
  {}

  lemma SpendKeeps(b: Bucket, p: Pace, bits: nat)
    requires Inv(b, p) && bits as real <= b.tokens <= p.capacity
    ensures Inv(Spend(b, bits), p)
  {
    var c := Spend(b, bits);
    var n := |b.shipped|;
    forall i | 0 <= i <= n
      ensures CoveredFrom(c, p, i)
    {
      SpendCovers(b, p, bits, i);
    }
    forall i, j | 0 <= i <= j <= n
      ensures WindowFits(c.shipped, p, i, j)
    {
      SpendConforms(b, p, bits, i, j);
    }
  }

  lemma SpendConforms(b: Bucket, p: Pace, bits: nat, i: nat, j: nat)
    requires Inv(b, p) && bits as real <= b.tokens <= p.capacity && i <= j <= |b.shipped|
    ensures WindowFits(Spend(b, bits).shipped, p, i, j)
  {
    var c := Spend(b, bits);
    if j < |b.shipped| {
      assert c.shipped[i..j + 1] == b.shipped[i..j + 1];
      assert WindowFits(b.shipped, p, i, j);
    } else {
      assert c.shipped[i..j + 1] == c.shipped[i..];
      SpendCovers(b, p, bits, i);
    }
  }

  lemma SpendCovers(b: Bucket, p: Pace, bits: nat, i: nat)
    requires bits as real <= b.tokens <= p.capacity && i <= |b.shipped|
    requires i < |b.shipped| ==> CoveredFrom(b, p, i)
    ensures CoveredFrom(Spend(b, bits), p, i)
  {
    var c := Spend(b, bits);
    var rest := c.shipped[i..];
    assert rest[..|rest| - 1] == b.shipped[i..] && rest[|rest| - 1].bits == bits;
    assert Sum(rest) == Sum(b.shipped[i..]) + bits;
    if i == |b.shipped| {
      assert b.shipped[i..] == [] && c.last - c.shipped[i].time == 0.0 && Earned(p, 0.0) == 0.0;
    } else {
      assert c.shipped[i] == b.shipped[i];
    }
    hide Earned, Sum;
  }

  // ---- Held batches ----

  /** A flush at `now` lets `bits` through. */
  predicate Admits(b: Bucket, p: Pace, bits: nat, now: real) { Refill(b, p, now).tokens >= bits as real }

  /** The hold-off is the minimum, or it does not outlast the refill of the missing tokens. */
  lemma WaitIsTight(missing: real, p: Pace)
    requires p.rate > 0.0
    ensures Wait(missing, p.rate) == MIN_WAIT || Earned(p, Wait(missing, p.rate)) <= missing
  {}

  /** The hold-off falls short of the missing tokens by less than one nanosecond's refill. */
  lemma WaitCovers(missing: real, p: Pace)
    requires p.rate > 0.0
    ensures Wait(missing, p.rate) >= MIN_WAIT
    ensures Earned(p, Wait(missing, p.rate)) + Earned(p, NANOSECOND) > missing
  {
    var seconds := missing / p.rate;
    var x := seconds / NANOSECOND;
    assert x - 1.0 < x.Floor as real;
    var w := Wait(missing, p.rate);
    assert w + NANOSECOND > seconds;
    EarnedMonotone(p, seconds, w + NANOSECOND);
    EarnedAdds(p, w, NANOSECOND);
    assert Earned(p, seconds) == missing;
  }

  /** The first expiry finds the batch paid for, up to one nanosecond's refill. */
  lemma FirstExpiry(held: Bucket, p: Pace, bits: nat, t1: real)
    requires p.rate > 0.0 && bits as real <= p.capacity
    requires t1 >= held.last + Wait(bits as real - held.tokens, p.rate)
    ensures NearlyPays(Refill(held, p, t1), p, bits)
  {
    hide Wait, Earned;
    var missing := bits as real - held.tokens;
    WaitCovers(missing, p);
    EarnedMonotone(p, Wait(missing, p.rate), t1 - held.last);
    EarnedMonotone(p, 0.0, NANOSECOND);
  }

  /** The bucket lacks at most one nanosecond's refill. */
  predicate NearlyPays(b: Bucket, p: Pace, bits: nat) { b.tokens + Earned(p, NANOSECOND) >= bits as real }

  /** A refill never makes a bucket that nearly pays fall behind. */
  lemma RefillStillPays(b: Bucket, p: Pace, bits: nat, now: real)
    requires p.rate > 0.0 && bits as real <= p.capacity && now >= b.last && NearlyPays(b, p, bits)
    ensures NearlyPays(Refill(b, p, now), p, bits)
  {
    hide Earned;
    EarnedMonotone(p, 0.0, now - b.last);
    EarnedMonotone(p, 0.0, NANOSECOND);
  }

  /** Once the bucket nearly pays, the next expiry lets the batch through: no wait is below 100 us. */
  lemma SecondExpiry(b: Bucket, p: Pace, bits: nat, now: real)
    requires p.rate > 0.0 && bits as real <= p.capacity && NearlyPays(b, p, bits)
    requires now >= b.last + Wait(bits as real - b.tokens, p.rate)
    ensures Admits(b, p, bits, now)
  {
    hide Wait, Earned;
    WaitCovers(bits as real - b.tokens, p);
    EarnedMonotone(p, NANOSECOND, now - b.last);
  }

  /**
   A batch that a full bucket can pay for ships by the second expiry of its timer after it was
   held: the truncated first wait can fall short, the minimum wait of the second cannot.
   */
  lemma HeldShipsBySecondExpiry(held: Bucket, p: Pace, bits: nat, t1: real, t2: real)
    requires p.rate > 0.0 && bits as real <= p.capacity
    requires t1 >= held.last + Wait(bits as real - held.tokens, p.rate)
    requires t2 >= t1 + Wait(bits as real - Refill(held, p, t1).tokens, p.rate)
    ensures Admits(held, p, bits, t1) || Admits(Refill(held, p, t1), p, bits, t2)
  {
    hide Wait, Earned;
    FirstExpiry(held, p, bits, t1);
    SecondExpiry(Refill(held, p, t1), p, bits, t2);
  }

  /** A batch that costs more than a full bucket never ships, whenever it is flushed. */
  lemma NeverShips(b: Bucket, p: Pace, bits: nat, now: real)
    requires bits as real > p.capacity
    ensures !Admits(b, p, bits, now)
  {}
}

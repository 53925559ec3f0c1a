/**
 Bus emulation on the vcan device: the running average of the wire cost of a frame, the queueing
 rate that matches it, and the hysteresis and hold-off of its updates. Times are in seconds.
 */
module CanRate {

  const FRAME_ACCOUNTING_BITS := 128
  const UTILISATION_PCT := 95
  const HYSTERESIS_PCT := 3
  const INCREASE_PERIOD := 1.0
  const DECREASE_PERIOD := 0.01
  const INITIAL_AVERAGE := 150.0

  /** One attempt to install a rate, and the rate installed before it. */
  datatype Attempt = Attempt(time: real, wanted: nat, previous: nat)

  datatype Meter = Meter(average: real, installed: nat, updated: real, attempts: seq<Attempt>)

  /** `vcan_rate_for`. */
  function RateFor(average: real, bitrate: nat): (rate: nat) {
    var bits := if average >= 1.0 then average else 1.0;
    var budget := (bitrate * FRAME_ACCOUNTING_BITS * UTILISATION_PCT) as real / 100.0;
    RateFloor(budget, bits)
  }

  function RateFloor(budget: real, bits: real): (rate: nat)
    requires budget >= 0.0 && bits >= 1.0
    ensures rate as real * bits <= budget < (rate as real + 1.0) * bits
  {
    var x := budget / bits;
    FloorBounds(x, budget, bits);
    x.Floor
  }

  lemma FloorBounds(x: real, budget: real, bits: real)
    requires budget >= 0.0 && bits >= 1.0 && x * bits == budget
    ensures x.Floor >= 0 && x.Floor as real * bits <= budget < (x.Floor as real + 1.0) * bits
  {
    var q := x.Floor as real;
    Below(q, x, bits);
    StrictlyBelow(q, x, budget, bits);
    if x < 0.0 { Product(-x, bits); }
  }

  lemma Product(x: real, y: real)
    requires x > 0.0 && y > 0.0
    ensures x * y > 0.0
  {}

  lemma Below(x: real, y: real, r: real)
    requires x <= y && r > 0.0
    ensures x * r <= y * r
  {}

  lemma StrictlyBelow(q: real, x: real, budget: real, bits: real)
    requires x * bits == budget && bits >= 1.0 && x < q + 1.0
    ensures budget < (q + 1.0) * bits
  {
    Product(q + 1.0 - x, bits);
    assert (q + 1.0 - x) * bits == (q + 1.0) * bits - x * bits;
  }

  /** The running average after one more frame. */
  function Averaged(average: real, bits: nat): (a: real)
    ensures 64.0 * a == 63.0 * average + bits as real
  {
    average + (bits as real - average) / 64.0
  }

  /** `install_vcan_rate_limit` when it succeeds. */
  function Installed(bitrate: nat, now: real): (m: Meter) {
    var rate := RateFor(INITIAL_AVERAGE, bitrate);
    Meter(INITIAL_AVERAGE, rate, now, [Attempt(now, rate, 0)])
  }

  /** Less than the hold-off of a decrease or an increase has passed since the last attempt. */
  predicate HeldOff(m: Meter, wanted: nat, now: real) {
    now - m.updated < (if wanted < m.installed then DECREASE_PERIOD else INCREASE_PERIOD)
  }

  /** The wanted rate is within the hysteresis of the installed one. */
  predicate Near(wanted: nat, installed: nat) {
    if wanted < installed then (installed - wanted) * 100 < installed * HYSTERESIS_PCT
    else installed != 0 && (wanted - installed) * 100 < installed * HYSTERESIS_PCT
  }

  /** `update_vcan_rate_limit`; `installs` is the answer of the netlink manager. */
  function Updated(m: Meter, bitrate: nat, now: real, installs: bool): (n: Meter) {
    var wanted := RateFor(m.average, bitrate);
    if HeldOff(m, wanted, now) || Near(wanted, m.installed) then m
    else m.(updated := now, installed := if installs then wanted else m.installed,
            attempts := m.attempts + [Attempt(now, wanted, m.installed)])
  }

  // ---- What the updates keep ----

  /** Attempts keep the hold-off of their direction and move the rate by the hysteresis or more. */
  predicate Spaced(attempts: seq<Attempt>) {
    forall i :: 0 < i < |attempts| ==>
      && attempts[i].time >= attempts[i - 1].time + DECREASE_PERIOD
      && (attempts[i].wanted >= attempts[i].previous ==> attempts[i].time >= attempts[i - 1].time + INCREASE_PERIOD)
      && !Near(attempts[i].wanted, attempts[i].previous)
  }

  predicate Inv(m: Meter) {
    m.attempts != [] && m.updated == m.attempts[|m.attempts| - 1].time && Spaced(m.attempts)
  }

  lemma UpdatedKeeps(m: Meter, bitrate: nat, now: real, installs: bool)
    requires Inv(m)
    ensures Inv(Updated(m, bitrate, now, installs))
  {
    hide Near, RateFor;
  }

  /** An update that is not held off and does not fail leaves a rate within 3 % of the wanted one. */
  lemma UpdatedIsNear(m: Meter, bitrate: nat, now: real)
    requires !HeldOff(m, RateFor(m.average, bitrate), now)
    ensures var wanted, n := RateFor(m.average, bitrate), Updated(m, bitrate, now, true);
            n.average == m.average && (n.installed == wanted || Near(wanted, n.installed))
  {}

  /** Classic frames keep the average between the cheapest frame and the initial guess. */
  lemma AverageRange(average: real, bits: nat)
    requires 49.0 <= average <= 150.0 && 49 <= bits <= 138
    ensures 49.0 <= Averaged(average, bits) <= 150.0
  {}

  /** At the estimated cost, the wanted rate uses at most 95 % of the bus, and no whole unit less. */
  lemma RateUsesBus(average: real, bitrate: nat)
    requires average >= 1.0
    ensures var rate := RateFor(average, bitrate);
            var budget := 0.95 * bitrate as real * FRAME_ACCOUNTING_BITS as real;
            rate as real * average <= budget < (rate as real + 1.0) * average
  {}
}

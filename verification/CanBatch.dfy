/**
 The CAN-to-UDP direction of the CAN bridge as a transition system: frames are collected into a
 batch that ships when it is full or its timer expires, unless pacing holds it back.
 */
module CanBatch {
  import opened Common
  import opened CanWire
  import CanPacing
  import CanRate

  const BATCH_MAX := 12
  const HOLD_OFF := 0.003

  /**
   What became of a batch: handed to the UDP client, rejected by it, dropped without a client, or
   discarded by a disconnect. What the client does with a batch that it took is not followed.
   */
  datatype Fate =
    | Sent(datagram: seq<byte>)
    | Rejected(datagram: seq<byte>)
    | Unsent(datagram: seq<byte>)
    | Discarded(datagram: seq<byte>)

  /** The answers a flush gets: the clock, `pause_rx`, the UDP client's `tx` and the netlink manager. */
  datatype Env = Env(now: real, pauses: bool, takes: bool, installs: bool)

  datatype State = State(
    bitrate: nat, shaped: bool, clock: real,
    client: bool, paused: bool,
    buffer: seq<byte>, bits: nat, armed: bool, delay: real,
    bucket: CanPacing.Bucket, meter: CanRate.Meter,
    // History: the frames taken from the socket and what became of the batches.
    accepted: seq<Frame>, fates: seq<Fate>)
  {
    predicate Paced() { bitrate != 0 && !shaped }
    predicate Full() { |buffer| >= BATCH_MAX * RECORD_SIZE }
    function Pace(): (p: CanPacing.Pace) { CanPacing.PaceOf(bitrate) }
  }

  /** The constructor: `shapes` tells whether the rate limit could be installed. */
  function Created(bitrate: nat, shapes: bool, now: real): (s: State) {
    var shaped := bitrate != 0 && shapes;
    var meter := if shaped then CanRate.Installed(bitrate, now)
                 else CanRate.Meter(if bitrate != 0 then CanRate.INITIAL_AVERAGE else 0.0, 0, 0.0, []);
    State(bitrate, shaped, now, true, false, [], 0, false, 0.0, CanPacing.Reset(bitrate, now), meter, [], [])
  }

  /** `append_to_can_batch`. */
  function Append(s: State, f: Frame): (t: State) {
    var bits := RecordBits(Record(f));
    s.(buffer := s.buffer + Record(f), bits := s.bits + bits,
       meter := s.meter.(average := CanRate.Averaged(s.meter.average, bits)), accepted := s.accepted + [f])
  }

  /** The answer of `tx` is ignored: a rejected batch is gone as well. */
  function Outcome(client: bool, takes: bool, datagram: seq<byte>): (f: Fate)
    ensures f.datagram == datagram
  {
    if !client then Unsent(datagram) else if takes then Sent(datagram) else Rejected(datagram)
  }

  /** The end of a flush that was not held back. */
  function Ship(s: State, env: Env): (t: State) {
    s.(fates := s.fates + [Outcome(s.client, env.takes, s.buffer)], buffer := [], bits := 0,
       meter := if s.shaped && s.bitrate != 0 then CanRate.Updated(s.meter, s.bitrate, env.now, env.installs)
                else s.meter,
       paused := false)
  }

  /** `flush_can_batch`. */
  function Flush(s: State, env: Env): (t: State) {
    var d := s.(armed := false, clock := env.now);
    if s.buffer == [] then d
    else if !s.Paced() then Ship(d, env)
    else
      var b := CanPacing.Refill(s.bucket, s.Pace(), env.now);
      if b.tokens >= s.bits as real then Ship(d.(bucket := CanPacing.Spend(b, s.bits)), env)
      else d.(bucket := b, armed := true, delay := CanPacing.Wait(s.bits as real - b.tokens, s.Pace().rate),
              paused := s.paused || env.pauses)
  }

  /** The frames waiting in the socket's queue, until the batch is full. */
  function Drain(s: State, queue: seq<Frame>): (t: State)
    decreases |queue|
  {
    if s.Full() || queue == [] then s else Drain(Append(s, queue[0]), queue[1..])
  }

  /** The end of the receive handler: a full batch is flushed, another one gets its timer. */
  function Close(s: State, env: Env): (t: State) {
    if s.Full() then Flush(s, env)
    else if !s.armed then s.(armed := true, delay := HOLD_OFF, clock := env.now)
    else s.(clock := env.now)
  }

  /** The receive handler of the CAN socket; the first flush happens only on a full batch. */
  function Receive(s: State, f: Frame, queue: seq<Frame>, first: Env, second: Env): (t: State) {
    var a := if s.Full() then Flush(s, first) else s;
    if a.Full() then a else Close(Drain(Append(a, f), queue), second)
  }

  /** `disconnect_cb_endpoint`. */
  function Disconnect(s: State, now: real): (t: State) {
    s.(fates := if s.buffer == [] then s.fates else s.fates + [Discarded(s.buffer)],
       buffer := [], bits := 0, armed := false, paused := false, client := false,
       bucket := CanPacing.Reset(s.bitrate, now), clock := now)
  }

  /** `connect_cb_endpoint`. */
  function Connect(s: State, now: real): (t: State) { Disconnect(s, now).(client := true) }

  // ---- Runs ----

  datatype Event =
    | Received(frame: Frame, queue: seq<Frame>, first: Env, second: Env)
    | Expired(env: Env)
    | Disconnected(now: real)
    | Connected(now: real)

  predicate Enabled(s: State, e: Event) {
    match e
    case Received(_, _, first, second) => s.clock <= first.now <= second.now
    case Expired(env) => s.armed && s.clock <= env.now
    case Disconnected(now) => s.clock <= now
    case Connected(now) => s.clock <= now
  }

  function Step(s: State, e: Event): (t: State) {
    match e
    case Received(f, queue, first, second) => Receive(s, f, queue, first, second)
    case Expired(env) => Flush(s, env)
    case Disconnected(now) => Disconnect(s, now)
    case Connected(now) => Connect(s, now)
  }

  ghost predicate IsRun(s: State, events: seq<Event>)
    decreases |events|
  {
    events == [] || (Enabled(s, events[0]) && IsRun(Step(s, events[0]), events[1..]))
  }

  ghost function Final(s: State, events: seq<Event>): (t: State)
    decreases |events|
  {
    if events == [] then s else Final(Step(s, events[0]), events[1..])
  }

  // ---- The batch ----

  /** The buffer holds whole records only. */
  predicate Whole(buffer: seq<byte>) { |buffer| == RECORD_SIZE * |Frames(buffer)| }

  /** All batches that left, read back. */
  function Decoded(fates: seq<Fate>): (fs: seq<Frame>) {
    if fates == [] then [] else Decoded(fates[..|fates| - 1]) + Frames(fates[|fates| - 1].datagram)
  }

  /** The buffer holds at most 12 whole records, and the running cost is their cost. */
  predicate BatchInv(s: State) {
    Whole(s.buffer) && |Frames(s.buffer)| <= BATCH_MAX && s.bits == Cost(Frames(s.buffer))
  }

  /** Between handlers: only a batch that waits has a timer, and only a held batch pauses the socket. */
  predicate TimerInv(s: State) { (s.buffer != [] <==> s.armed) && (s.paused ==> s.armed && s.Paced()) }

  /** The batches that left, followed by the current one, are the accepted frames in their order. */
  predicate LedgerInv(s: State) {
    && Decoded(s.fates) + Frames(s.buffer) == Plain(s.accepted)
    && forall i :: 0 <= i < |s.fates| ==>
         Whole(s.fates[i].datagram) && 0 < |s.fates[i].datagram| <= BATCH_MAX * RECORD_SIZE
  }

  /** With pacing, the bucket charged the latest batches with what they cost on the bus. */
  predicate ChargedInv(s: State) {
    var n, m := |s.fates|, |s.bucket.shipped|;
    m <= n && (s.Paced() ==>
      forall i :: 0 <= i < m ==> s.bucket.shipped[i].bits == Cost(Frames(s.fates[n - m + i].datagram)))
  }

  ghost predicate BucketInv(s: State) {
    s.bucket.last <= s.clock && CanPacing.Inv(s.bucket, s.Pace())
  }

  predicate MeterInv(s: State) { s.shaped ==> s.bitrate != 0 && CanRate.Inv(s.meter) }

  /** What also holds inside a handler. */
  ghost predicate OpenInv(s: State) {
    BatchInv(s) && LedgerInv(s) && ChargedInv(s) && BucketInv(s) && MeterInv(s)
  }

  ghost predicate Inv(s: State) { OpenInv(s) && TimerInv(s) }

  lemma CreatedInv(bitrate: nat, shapes: bool, now: real)
    ensures Inv(Created(bitrate, shapes, now))
  {}

  lemma WholeSnoc(buffer: seq<byte>, f: Frame)
    requires Whole(buffer)
    ensures Whole(buffer + Record(f)) && Frames(buffer + Record(f)) == Frames(buffer) + [f.Plain()]
  {
    hide Frames, Record;
    FramesSnoc(buffer, |Frames(buffer)|, f);
  }

  lemma PlainSnoc(fs: seq<Frame>, f: Frame)
    ensures Plain(fs + [f]) == Plain(fs) + [f.Plain()]
  {}

  lemma AppendKeeps(s: State, f: Frame)
    requires OpenInv(s) && !s.Full()
    ensures OpenInv(Append(s, f)) && Append(s, f).buffer != []
  {
    hide Frames, Record, RecordBits, CanRate.Averaged;
    WholeSnoc(s.buffer, f);
    PlainSnoc(s.accepted, f);
    RecordBitsOfFrame(f);
    CostSnoc(Frames(s.buffer), f.Plain());
    var t := Append(s, f);
    assert Decoded(t.fates) + Frames(t.buffer) == Decoded(s.fates) + Frames(s.buffer) + [f.Plain()];
  }

  /** A batch that leaves moves its frames from the buffer to the ledger. */
  lemma LeaveKeepsLedger(s: State, fate: Fate)
    requires BatchInv(s) && LedgerInv(s) && s.buffer != [] && fate.datagram == s.buffer
    ensures LedgerInv(s.(fates := s.fates + [fate], buffer := []))
  {}

  /** The bucket was charged with the batch that leaves. */
  lemma LeaveKeepsCharges(s: State, fate: Fate, bits: nat)
    requires ChargedInv(s) && bits == Cost(Frames(fate.datagram))
    ensures ChargedInv(s.(fates := s.fates + [fate], bucket := CanPacing.Spend(s.bucket, bits)))
  {
    hide Frames, Cost;
  }

  lemma ShipKeeps(s: State, env: Env)
    requires BatchInv(s) && LedgerInv(s) && BucketInv(s) && MeterInv(s) && s.buffer != [] && !s.armed
    requires ChargedInv(s.(fates := Ship(s, env).fates))
    ensures Inv(Ship(s, env)) && Ship(s, env).buffer == []
  {
    hide Frames, Plain, Decoded, CanPacing.Inv, CanRate.Inv, CanRate.Updated;
    LeaveKeepsLedger(s, Outcome(s.client, env.takes, s.buffer));
    if s.shaped { CanRate.UpdatedKeeps(s.meter, s.bitrate, env.now, env.installs); }
    assert Frames([]) == [];
  }

  lemma PacePositive(bitrate: nat)
    ensures var p := CanPacing.PaceOf(bitrate); p.rate >= 0.0 && p.capacity >= 0.0 && (bitrate != 0 ==> p.rate > 0.0)
  {}

  /** The bucket pays for the batch with what it costs on the bus, and the batch ships. */
  lemma PaidFlushKeeps(s: State, b: CanPacing.Bucket, env: Env)
    requires BatchInv(s) && LedgerInv(s) && ChargedInv(s) && MeterInv(s) && s.buffer != [] && !s.armed
    requires b.last <= s.clock && b.shipped == s.bucket.shipped && CanPacing.Inv(b, s.Pace())
    requires s.bits as real <= b.tokens <= s.Pace().capacity
    ensures Inv(Ship(s.(bucket := CanPacing.Spend(b, s.bits)), env))
  {
    hide Frames, Plain, Decoded, CanPacing.Inv, CanRate.Inv, CanRate.Updated, CanPacing.PaceOf, Inv, Whole;
    CanPacing.SpendKeeps(b, s.Pace(), s.bits);
    LeaveKeepsCharges(s.(bucket := b), Outcome(s.client, env.takes, s.buffer), s.bits);
    ShipKeeps(s.(bucket := CanPacing.Spend(b, s.bits)), env);
  }

  /** With pacing, the batch is charged and ships, or the refilled bucket holds it. */
  lemma PacedFlushKeeps(s: State, env: Env)
    requires OpenInv(s) && s.clock <= env.now && s.buffer != [] && s.Paced()
    ensures Inv(Flush(s, env))
  {
    hide Frames, Plain, Decoded, CanPacing.Inv, CanRate.Inv, CanPacing.Wait, CanPacing.PaceOf, Ship, Cost;
    PacePositive(s.bitrate);
    CanPacing.RefillKeeps(s.bucket, s.Pace(), env.now);
    var b := CanPacing.Refill(s.bucket, s.Pace(), env.now);
    if b.tokens >= s.bits as real { PaidFlushKeeps(s.(armed := false, clock := env.now), b, env); }
  }

  /** Between handlers, and also on the full batch inside one, a flush restores the invariant. */
  lemma FlushKeeps(s: State, env: Env)
    requires OpenInv(s) && s.clock <= env.now && (s.paused ==> s.buffer != [] && s.Paced())
    ensures Inv(Flush(s, env)) && Flush(s, env).clock == env.now
    ensures Flush(s, env).accepted == s.accepted
    ensures Flush(s, env).buffer == [] || Flush(s, env).buffer == s.buffer
  {
    hide Frames, Plain, Decoded, CanPacing.Inv, CanRate.Inv, CanRate.Updated, CanPacing.Wait, CanPacing.PaceOf;
    PacePositive(s.bitrate);
    if s.buffer != [] {
      if s.Paced() {
        PacedFlushKeeps(s, env);
      } else {
        ShipKeeps(s.(armed := false, clock := env.now), env);
      }
    }
  }

  lemma {:induction false} DrainKeeps(s: State, queue: seq<Frame>)
    requires OpenInv(s) && s.buffer != []
    ensures OpenInv(Drain(s, queue)) && Drain(s, queue).buffer != []
    ensures Drain(s, queue) == s.(buffer := Drain(s, queue).buffer, bits := Drain(s, queue).bits,
                                  meter := Drain(s, queue).meter, accepted := Drain(s, queue).accepted)
    decreases |queue|
  {
    hide OpenInv;
    if !s.Full() && queue != [] {
      AppendKeeps(s, queue[0]);
      DrainKeeps(Append(s, queue[0]), queue[1..]);
    }
  }

  lemma CloseKeeps(s: State, env: Env)
    requires OpenInv(s) && s.buffer != [] && s.clock <= env.now && (s.paused ==> s.armed && s.Paced())
    ensures Inv(Close(s, env))
  {
    hide Frames, Plain, Decoded, CanPacing.Inv, CanRate.Inv, Flush;
    if s.Full() { FlushKeeps(s, env); }
  }

  lemma ReceiveKeeps(s: State, f: Frame, queue: seq<Frame>, first: Env, second: Env)
    requires Inv(s) && s.clock <= first.now <= second.now
    ensures Inv(Receive(s, f, queue, first, second))
  {
    hide OpenInv, Flush, Drain, Close;
    if s.Full() { FlushKeeps(s, first); }
    var a := if s.Full() then Flush(s, first) else s;
    if !a.Full() {
      AppendKeeps(a, f);
      DrainKeeps(Append(a, f), queue);
      CloseKeeps(Drain(Append(a, f), queue), second);
    }
  }

  lemma DisconnectKeeps(s: State, now: real)
    requires Inv(s) && s.clock <= now
    ensures Inv(Disconnect(s, now)) && Inv(Connect(s, now))
  {
    hide Frames, Plain, Decoded, CanPacing.Inv, CanRate.Inv;
    CanPacing.ResetInv(s.bitrate, now);
    if s.buffer != [] { LeaveKeepsLedger(s, Discarded(s.buffer)); }
    assert Frames([]) == [];
  }

  lemma StepKeepsInv(s: State, e: Event)
    requires Inv(s) && Enabled(s, e)
    ensures Inv(Step(s, e))
  {
    hide OpenInv, Flush, Receive, Disconnect;
    match e
    case Received(f, queue, first, second) => ReceiveKeeps(s, f, queue, first, second);
    case Expired(env) => FlushKeeps(s, env);
    case Disconnected(now) => DisconnectKeeps(s, now);
    case Connected(now) => DisconnectKeeps(s, now);
  }

  lemma {:induction false} EveryRunKeepsInv(s: State, events: seq<Event>)
    requires Inv(s) && IsRun(s, events)
    ensures Inv(Final(s, events))
    decreases |events|
  {
    hide Inv, Step, Enabled;
    if events != [] {
      StepKeepsInv(s, events[0]);
      EveryRunKeepsInv(Step(s, events[0]), events[1..]);
    }
  }
}

/** What the batch protocol of the CAN bridge guarantees over whole runs. */
module CanTheorems {
  import opened Common
  import opened CanWire
  import opened CanBatch
  import CanPacing
  import CanRate

  // ---- Every run of the bridge ----

  lemma Reached(bitrate: nat, shapes: bool, now: real, events: seq<Event>)
    requires IsRun(Created(bitrate, shapes, now), events)
    ensures Inv(Final(Created(bitrate, shapes, now), events))
  {
    CreatedInv(bitrate, shapes, now);
    EveryRunKeepsInv(Created(bitrate, shapes, now), events);
  }

  /**
   Between handlers the buffer holds at most 12 whole records, the running cost is their cost on the
   bus, and a batch waits exactly when its timer is armed; a paused socket always has such a timer.
   */
  lemma NoBatchIsStranded(bitrate: nat, shapes: bool, now: real, events: seq<Event>)
    requires IsRun(Created(bitrate, shapes, now), events)
    ensures var t := Final(Created(bitrate, shapes, now), events);
            && |t.buffer| == RECORD_SIZE * |Frames(t.buffer)| && |Frames(t.buffer)| <= BATCH_MAX
            && t.bits == Cost(Frames(t.buffer))
            && (t.buffer != [] <==> t.armed) && (t.paused ==> t.armed)
  {
    Reached(bitrate, shapes, now, events);
  }

  /** Every accepted frame is in exactly one batch, in order, and every batch has 1 to 12 records. */
  lemma FramesAreConserved(bitrate: nat, shapes: bool, now: real, events: seq<Event>)
    requires IsRun(Created(bitrate, shapes, now), events)
    ensures var t := Final(Created(bitrate, shapes, now), events);
            && Decoded(t.fates) + Frames(t.buffer) == Plain(t.accepted)
            && forall i :: 0 <= i < |t.fates| ==>
                 var d := t.fates[i].datagram; |d| == RECORD_SIZE * |Frames(d)| && 1 <= |Frames(d)| <= BATCH_MAX
  {
    Reached(bitrate, shapes, now, events);
  }

  predicate Reconnects(e: Event) { e.Disconnected? || e.Connected? }

  // ---- What becomes of the batches ----

  /** The batch leaves in this flush. */
  predicate Leaves(s: State, env: Env) {
    s.buffer != [] && (s.Paced() ==> CanPacing.Admits(s.bucket, s.Pace(), s.bits, env.now))
  }

  /** A batch that leaves is handed to the UDP client exactly when there is one and it takes the batch. */
  lemma FlushOutcome(s: State, env: Env)
    ensures var t := Flush(s, env);
            && t.client == s.client
            && t.fates == s.fates + (if Leaves(s, env) then [Outcome(s.client, env.takes, s.buffer)] else [])
            && (t.buffer == if Leaves(s, env) then [] else s.buffer)
  {}

  predicate AllSent(fates: seq<Fate>) { forall i :: 0 <= i < |fates| ==> fates[i].Sent? }

  predicate HandsOver(s: State, env: Env) { Leaves(s, env) ==> s.client && env.takes }

  /** Every batch that leaves in this step finds a client that takes it. */
  predicate StepHandsOver(s: State, e: Event) {
    match e
    case Received(f, queue, first, second) =>
      var a := if s.Full() then Flush(s, first) else s;
      var d := Drain(Append(a, f), queue);
      (s.Full() ==> HandsOver(s, first)) && (!a.Full() && d.Full() ==> HandsOver(d, second))
    case Expired(env) => HandsOver(s, env)
    case Disconnected(_) => s.buffer == []
    case Connected(_) => s.buffer == []
  }

  ghost predicate RunHandsOver(s: State, events: seq<Event>)
    decreases |events|
  {
    events == [] || (StepHandsOver(s, events[0]) && RunHandsOver(Step(s, events[0]), events[1..]))
  }

  lemma FlushSends(s: State, env: Env)
    ensures AllSent(Flush(s, env).fates) <==> AllSent(s.fates) && HandsOver(s, env)
  {
    FlushOutcome(s, env);
    hide Flush, Leaves;
    var t := Flush(s, env).fates;
    if AllSent(t) {
      forall i | 0 <= i < |s.fates| ensures s.fates[i].Sent? { assert t[i] == s.fates[i]; }
      if Leaves(s, env) { assert t[|s.fates|].Sent?; }
    }
  }

  lemma {:induction false} DrainSends(s: State, queue: seq<Frame>)
    ensures Drain(s, queue).client == s.client && Drain(s, queue).fates == s.fates
    decreases |queue|
  {
    if !s.Full() && queue != [] { DrainSends(Append(s, queue[0]), queue[1..]); }
  }

  lemma StepSends(s: State, e: Event)
    ensures AllSent(Step(s, e).fates) <==> AllSent(s.fates) && StepHandsOver(s, e)
  {
    hide Flush, Drain, HandsOver;
    match e
    case Received(f, queue, first, second) =>
      FlushSends(s, first);
      var a := if s.Full() then Flush(s, first) else s;
      DrainSends(Append(a, f), queue);
      FlushSends(Drain(Append(a, f), queue), second);
    case Expired(env) => FlushSends(s, env);
    case Disconnected(now) => DiscardSends(s, now);
    case Connected(now) => DiscardSends(s, now);
  }

  lemma DiscardSends(s: State, now: real)
    ensures AllSent(Disconnect(s, now).fates) <==> AllSent(s.fates) && s.buffer == []
  {
    var t := Disconnect(s, now).fates;
    if s.buffer != [] { assert t[|s.fates|] == Discarded(s.buffer); }
    if AllSent(t) {
      forall i | 0 <= i < |s.fates| ensures s.fates[i].Sent? { assert t[i] == s.fates[i]; }
    }
  }

  /**
   Over every run: all batches were handed to the UDP client if and only if every batch that left
   found a client that took it, and no reconnect found a batch waiting.
   */
  lemma {:induction false} AllHandedOverExactly(s: State, events: seq<Event>)
    ensures AllSent(Final(s, events).fates) <==> AllSent(s.fates) && RunHandsOver(s, events)
    decreases |events|
  {
    hide Step, StepHandsOver, AllSent;
    if events != [] {
      StepSends(s, events[0]);
      AllHandedOverExactly(Step(s, events[0]), events[1..]);
    }
  }

  /** No flush of the event is answered with a rejection. */
  predicate Takes(e: Event) {
    match e
    case Received(_, _, first, second) => first.takes && second.takes
    case Expired(env) => env.takes
    case _ => true
  }

  /** With a client that takes every batch and no reconnect, every batch is handed over. */
  lemma {:induction false} TakingClientGetsAll(s: State, events: seq<Event>)
    requires s.client && AllSent(s.fates)
    requires forall i :: 0 <= i < |events| ==> !Reconnects(events[i]) && Takes(events[i])
    ensures Final(s, events).client && AllSent(Final(s, events).fates)
    decreases |events|
  {
    if events != [] {
      assert !Reconnects(events[0]) && Takes(events[0]);
      StepTakes(s, events[0]);
      hide Step, AllSent, Reconnects, Takes;
      forall i | 0 <= i < |events[1..]| ensures !Reconnects(events[1..][i]) && Takes(events[1..][i]) {
        assert events[1..][i] == events[i + 1];
      }
      TakingClientGetsAll(Step(s, events[0]), events[1..]);
    }
  }

  lemma StepTakes(s: State, e: Event)
    requires s.client && AllSent(s.fates) && !Reconnects(e) && Takes(e)
    ensures Step(s, e).client && AllSent(Step(s, e).fates)
  {
    hide Flush, Drain, Leaves, AllSent;
    StepSends(s, e);
    match e
    case Received(f, queue, first, second) =>
      FlushOutcome(s, first);
      var a := if s.Full() then Flush(s, first) else s;
      DrainSends(Append(a, f), queue);
      FlushOutcome(Drain(Append(a, f), queue), second);
    case Expired(env) => FlushOutcome(s, env);
  }

  /** A run without a reconnect in which the client rejects the only batch, and its frame is gone. */
  lemma RejectedBatchIsGone(f: Frame)
    ensures var s := Created(0, false, 0.0);
            var quiet, rejecting := Env(0.0, false, true, false), Env(0.003, false, false, false);
            var events := [Received(f, [], quiet, quiet), Expired(rejecting)];
            && IsRun(s, events)
            && Final(s, events).accepted == [f] && Final(s, events).buffer == []
            && Final(s, events).fates == [Rejected(Record(f))]
  {
    var s := Created(0, false, 0.0);
    var quiet, rejecting := Env(0.0, false, true, false), Env(0.003, false, false, false);
    var first, second := Received(f, [], quiet, quiet), Expired(rejecting);
    hide Record, RecordBits, CanRate.Averaged;
    var t := Step(s, first);
    assert t.buffer == [] + Record(f) == Record(f) && t.armed && t.accepted == [f] && t.fates == [];
    var u := Step(t, second);
    assert u.fates == [Rejected(Record(f))] && u.accepted == [f] && u.buffer == [];
    var events := [first, second];
    assert events[1..] == [second] && events[1..][1..] == [];
    assert Final(t, [second]) == Final(u, []) == u;
    assert IsRun(u, []) && IsRun(t, [second]);
  }

  /** The bucket has charged the latest batches with their cost, and every window of them conforms. */
  ghost predicate Conforming(t: State, i: nat, j: nat)
    requires i <= j < |t.bucket.shipped|
  {
    var shipped, skipped := t.bucket.shipped, |t.fates| - |t.bucket.shipped|;
    && skipped >= 0
    && (forall k :: 0 <= k < |shipped| ==> shipped[k].bits == Cost(Frames(t.fates[skipped + k].datagram)))
    && CanPacing.Sum(shipped[i..j + 1]) as real
         <= t.Pace().capacity + (shipped[j].time - shipped[i].time) * t.Pace().rate
  }

  lemma InvConforms(t: State, i: nat, j: nat)
    requires Inv(t) && t.Paced() && i <= j < |t.bucket.shipped|
    ensures Conforming(t, i, j)
  {
    hide Cost, Frames, Decoded, Plain, CanRate.Inv, CanPacing.PaceOf, CanPacing.Sum;
    assert CanPacing.WindowFits(t.bucket.shipped, t.Pace(), i, j);
  }

  /**
   The token-bucket theorem. With pacing, the tokens never go negative; the bucket has charged the
   batches since the last reset with their cost on the bus; and in every window of them the cost
   is at most a full bucket plus the refill between its first and last batch.
   */
  lemma PacedTrafficConforms(bitrate: nat, shapes: bool, now: real, events: seq<Event>)
    requires IsRun(Created(bitrate, shapes, now), events)
    ensures var t := Final(Created(bitrate, shapes, now), events);
            t.bucket.tokens >= 0.0 &&
            (t.Paced() ==> forall i, j :: 0 <= i <= j < |t.bucket.shipped| ==> Conforming(t, i, j))
  {
    Reached(bitrate, shapes, now, events);
    var t := Final(Created(bitrate, shapes, now), events);
    hide IsRun, Final, Conforming, BatchInv, LedgerInv, MeterInv, ChargedInv;
    if t.Paced() {
      forall i, j | 0 <= i <= j < |t.bucket.shipped| ensures Conforming(t, i, j) { InvConforms(t, i, j); }
    }
  }

  // ---- What one reception does ----

  lemma {:induction false} DrainTakes(s: State, queue: seq<Frame>)
    requires OpenInv(s) && s.buffer != []
    ensures Drain(s, queue).accepted ==
            s.accepted + queue[..Least(|queue|, BATCH_MAX - |Frames(s.buffer)|)]
    decreases |queue|
  {
    hide Frames, Record, RecordBits, CanRate.Averaged, LedgerInv, ChargedInv, BucketInv, MeterInv;
    if !s.Full() && queue != [] {
      AppendKeeps(s, queue[0]);
      WholeSnoc(s.buffer, queue[0]);
      var n := Least(|queue| - 1, BATCH_MAX - |Frames(s.buffer)| - 1);
      DrainTakes(Append(s, queue[0]), queue[1..]);
      assert queue[..n + 1] == [queue[0]] + queue[1..][..n];
    }
  }

  /**
   A received frame is dropped exactly when a full batch is held back by pacing. Otherwise it is
   accepted, together with as many queued frames as the batch has room for.
   */
  lemma ReceiveAccepts(s: State, f: Frame, queue: seq<Frame>, first: Env, second: Env)
    requires Inv(s) && s.clock <= first.now <= second.now
    ensures var held := s.Full() && s.Paced() && !CanPacing.Admits(s.bucket, s.Pace(), s.bits, first.now);
            var before := if s.Full() then 0 else |Frames(s.buffer)|;
            Receive(s, f, queue, first, second).accepted ==
              if held then s.accepted else s.accepted + [f] + queue[..Least(|queue|, BATCH_MAX - 1 - before)]
  {
    hide Frames, Plain, Decoded, Record, RecordBits, Drain, CanRate.Inv, CanRate.Averaged, CanRate.Updated;
    hide CanPacing.Inv, CanPacing.PaceOf, CanPacing.Wait, CanPacing.Spend;
    if s.Full() { FlushKeeps(s, first); }
    var a := if s.Full() then Flush(s, first) else s;
    assert Frames([]) == [];
    if !a.Full() {
      var b := Append(a, f);
      AppendKeeps(a, f);
      WholeSnoc(a.buffer, f);
      DrainTakes(b, queue);
      DrainKeeps(b, queue);
      CloseAccepts(Drain(b, queue), second);
    }
  }

  lemma CloseAccepts(s: State, env: Env)
    ensures Close(s, env).accepted == s.accepted
  {}

  // ---- Held batches ----

  /** A held batch that a full bucket can pay for has shipped by the second expiry of its timer. */
  lemma HeldBatchShips(s: State, e0: Env, e1: Env, e2: Env)
    requires s.Paced() && s.bits as real <= s.Pace().capacity
    ensures var held := Flush(s, e0);
            var again := Flush(held, e1);
            held.buffer != [] && e1.now >= e0.now + held.delay && e2.now >= e1.now + again.delay ==>
              again.buffer == [] || Flush(again, e2).buffer == []
  {
    hide CanPacing.PaceOf, CanPacing.Wait, CanPacing.Earned, CanPacing.Min, CanRate.Updated;
    PacePositive(s.bitrate);
    var held := Flush(s, e0);
    var again := Flush(held, e1);
    if held.buffer != [] && e1.now >= e0.now + held.delay && e2.now >= e1.now + again.delay && again.buffer != [] {
      CanPacing.HeldShipsBySecondExpiry(CanPacing.Refill(s.bucket, s.Pace(), e0.now), s.Pace(), s.bits, e1.now, e2.now);
    }
  }

  /** The batch costs more than a full bucket. */
  predicate TooDear(s: State) { s.Paced() && s.buffer != [] && s.bits as real > s.Pace().capacity }

  lemma FlushHolds(s: State, env: Env)
    requires TooDear(s)
    ensures var t := Flush(s, env); TooDear(t) && t.buffer == s.buffer && t.fates == s.fates
  {
    CanPacing.NeverShips(s.bucket, s.Pace(), s.bits, env.now);
  }

  lemma {:induction false} DrainHolds(s: State, queue: seq<Frame>)
    requires TooDear(s)
    ensures var t := Drain(s, queue); TooDear(t) && s.buffer <= t.buffer && t.fates == s.fates
    decreases |queue|
  {
    hide Record, RecordBits, CanPacing.PaceOf;
    if !s.Full() && queue != [] {
      assert TooDear(Append(s, queue[0]));
      DrainHolds(Append(s, queue[0]), queue[1..]);
    }
  }

  lemma StepHolds(s: State, e: Event)
    requires TooDear(s) && !Reconnects(e)
    ensures var t := Step(s, e);
            TooDear(t) && t.fates == s.fates && s.buffer <= t.buffer && (s.Full() ==> t.buffer == s.buffer)
  {
    hide Flush, Drain, CanPacing.PaceOf, Record, RecordBits;
    match e
    case Received(f, queue, first, second) =>
      FlushHolds(s, first);
      if !s.Full() {
        assert TooDear(Append(s, f));
        DrainHolds(Append(s, f), queue);
        FlushHolds(Drain(Append(s, f), queue), second);
      }
    case Expired(env) => FlushHolds(s, env);
  }

  /** A batch that costs more than a full bucket never leaves, whatever happens before the next reconnect. */
  lemma {:induction false} HeldForever(s: State, events: seq<Event>)
    requires TooDear(s) && forall i :: 0 <= i < |events| ==> !Reconnects(events[i])
    ensures var t := Final(s, events);
            TooDear(t) && t.fates == s.fates && s.buffer <= t.buffer && (s.Full() ==> t.buffer == s.buffer)
    decreases |events|
  {
    if events != [] {
      assert !Reconnects(events[0]);
      StepHolds(s, events[0]);
      hide Step, TooDear, Reconnects;
      forall i | 0 <= i < |events[1..]| ensures !Reconnects(events[1..][i]) { assert events[1..][i] == events[i + 1]; }
      HeldForever(Step(s, events[0]), events[1..]);
    }
  }

  predicate Classic(fs: seq<Frame>) { forall i :: 0 <= i < |fs| ==> |fs[i].payload| <= 8 }

  lemma {:induction false} ClassicCost(fs: seq<Frame>)
    requires Classic(fs)
    ensures Cost(fs) <= 138 * |fs|
  {
    if fs != [] {
      WireBitsRange(|fs[0].payload|, fs[0].eff);
      ClassicCost(fs[1..]);
    }
  }

  /** At every supported bitrate a full bucket pays for a full batch of classic frames. */
  lemma ClassicBatchFits(s: State)
    requires Inv(s) && Classic(Frames(s.buffer)) && s.bitrate in {125000, 250000, 500000, 1000000}
    ensures s.bits as real <= s.Pace().capacity
  {
    ClassicCost(Frames(s.buffer));
    hide Frames, Cost;
  }

  predicate Longest(fs: seq<Frame>) { forall i :: 0 <= i < |fs| ==> |fs[i].payload| == 64 }

  lemma {:induction false} LongestCost(fs: seq<Frame>)
    requires Longest(fs)
    ensures Cost(fs) >= 594 * |fs|
  {
    if fs != [] { LongestCost(fs[1..]); }
  }

  /** A full batch of 64-byte frames at 500 kbit/s and below stays where it is until the next reconnect. */
  lemma LongestBatchIsHeldForever(s: State, events: seq<Event>)
    requires Inv(s) && s.Paced() && s.bitrate <= 500000
    requires |Frames(s.buffer)| == BATCH_MAX && Longest(Frames(s.buffer))
    requires forall i :: 0 <= i < |events| ==> !Reconnects(events[i])
    ensures Final(s, events).buffer == s.buffer && Final(s, events).fates == s.fates
  {
    LongestCost(Frames(s.buffer));
    hide Frames, Cost, Final;
    assert s.Pace().capacity <= 7125.0 < s.bits as real;
    HeldForever(s, events);
  }

  lemma {:induction false} DrainKeepsSetup(s: State, queue: seq<Frame>)
    ensures Drain(s, queue).bitrate == s.bitrate
    decreases |queue|
  {
    if !s.Full() && queue != [] { DrainKeepsSetup(Append(s, queue[0]), queue[1..]); }
  }

  lemma FlushKeepsSetup(s: State, env: Env)
    ensures Flush(s, env).bitrate == s.bitrate
  {}

  lemma StepKeepsSetup(s: State, e: Event)
    ensures Step(s, e).bitrate == s.bitrate
  {
    hide Flush, Drain;
    match e
    case Received(f, queue, first, second) =>
      FlushKeepsSetup(s, first);
      var a := if s.Full() then Flush(s, first) else s;
      DrainKeepsSetup(Append(a, f), queue);
      FlushKeepsSetup(Drain(Append(a, f), queue), second);
    case Expired(env) => FlushKeepsSetup(s, env);
    case Disconnected(now) =>
    case Connected(now) =>
  }

  lemma {:induction false} RunKeepsSetup(s: State, events: seq<Event>)
    ensures Final(s, events).bitrate == s.bitrate
    decreases |events|
  {
    hide Step;
    if events != [] {
      StepKeepsSetup(s, events[0]);
      RunKeepsSetup(Step(s, events[0]), events[1..]);
    }
  }

  /** The frames in the buffer are the last accepted ones. */
  lemma BufferIsClassic(s: State)
    requires LedgerInv(s) && Classic(s.accepted)
    ensures Classic(Frames(s.buffer))
  {
    hide Frames, Decoded;
    var all, n := Plain(s.accepted), |Decoded(s.fates)|;
    forall i | 0 <= i < |Frames(s.buffer)| ensures |Frames(s.buffer)[i].payload| <= 8 {
      assert Frames(s.buffer)[i] == (Decoded(s.fates) + Frames(s.buffer))[n + i] == all[n + i];
      assert all[n + i] == s.accepted[n + i].Plain();
    }
  }

  // ---- The average cost of a frame ----

  /** For classic frames the running average stays between the cheapest frame and the initial guess. */
  predicate AverageInv(s: State) {
    s.bitrate != 0 && Classic(s.accepted) ==> 49.0 <= s.meter.average <= 150.0
  }

  lemma CreatedAverage(bitrate: nat, shapes: bool, now: real)
    ensures AverageInv(Created(bitrate, shapes, now))
  {}

  lemma AppendKeepsAverage(s: State, f: Frame)
    requires AverageInv(s)
    ensures AverageInv(Append(s, f)) && Append(s, f).bitrate == s.bitrate
  {
    hide Record, RecordBits, CanRate.Averaged;
    var t := Append(s, f);
    if Classic(t.accepted) {
      assert t.accepted[|s.accepted|] == f;
      forall i | 0 <= i < |s.accepted| ensures |s.accepted[i].payload| <= 8 { assert t.accepted[i] == s.accepted[i]; }
      RecordBitsOfFrame(f);
      WireBitsRange(|f.payload|, f.eff);
      if s.bitrate != 0 { CanRate.AverageRange(s.meter.average, FrameBits(f)); }
    }
  }

  lemma {:induction false} DrainKeepsAverage(s: State, queue: seq<Frame>)
    requires AverageInv(s)
    ensures AverageInv(Drain(s, queue))
    decreases |queue|
  {
    hide Append, AverageInv;
    if !s.Full() && queue != [] {
      AppendKeepsAverage(s, queue[0]);
      DrainKeepsAverage(Append(s, queue[0]), queue[1..]);
    }
  }

  lemma FlushKeepsAverage(s: State, env: Env)
    requires AverageInv(s)
    ensures AverageInv(Flush(s, env))
  {}

  lemma StepKeepsAverage(s: State, e: Event)
    requires AverageInv(s)
    ensures AverageInv(Step(s, e))
  {
    hide Flush, Drain, Append, Classic;
    match e
    case Received(f, queue, first, second) =>
      FlushKeepsAverage(s, first);
      var a := if s.Full() then Flush(s, first) else s;
      AppendKeepsAverage(a, f);
      DrainKeepsAverage(Append(a, f), queue);
      FlushKeepsAverage(Drain(Append(a, f), queue), second);
    case Expired(env) => FlushKeepsAverage(s, env);
    case Disconnected(now) =>
    case Connected(now) =>
  }

  lemma {:induction false} EveryRunKeepsAverage(s: State, events: seq<Event>)
    requires AverageInv(s) && IsRun(s, events)
    ensures AverageInv(Final(s, events))
    decreases |events|
  {
    hide AverageInv, Step, Enabled;
    if events != [] {
      StepKeepsAverage(s, events[0]);
      EveryRunKeepsAverage(Step(s, events[0]), events[1..]);
    }
  }

  /**
   Over every run with classic frames the average stays in [49, 150], so the wanted rate never
   admits more than 95 % of the bitrate at the estimated cost; the attempts to install a rate keep
   their hold-off.
   */
  lemma BusIsNotOverbooked(bitrate: nat, shapes: bool, now: real, events: seq<Event>)
    requires IsRun(Created(bitrate, shapes, now), events)
    requires var t := Final(Created(bitrate, shapes, now), events); t.bitrate != 0 && Classic(t.accepted)
    ensures var t := Final(Created(bitrate, shapes, now), events);
            && 49.0 <= t.meter.average <= 150.0
            && CanRate.RateFor(t.meter.average, t.bitrate) as real * t.meter.average
                 <= 0.95 * t.bitrate as real * CanRate.FRAME_ACCOUNTING_BITS as real
            && (t.shaped ==> CanRate.Spaced(t.meter.attempts))
  {
    hide IsRun, Final, BatchInv, LedgerInv, ChargedInv, BucketInv, Classic, Created, CanRate.RateFor, CanRate.Spaced;
    var s := Created(bitrate, shapes, now);
    var t := Final(s, events);
    Reached(bitrate, shapes, now, events);
    CreatedAverage(bitrate, shapes, now);
    EveryRunKeepsAverage(s, events);
    CanRate.RateUsesBus(t.meter.average, t.bitrate);
  }
}

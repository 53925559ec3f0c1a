/** Which held batches leave, and when: progress of the batch protocol over whole runs. */
module CanProgress {
  import opened CanWire
  import opened CanBatch
  import opened CanTheorems
  import CanPacing
  import CanRate

  // ---- Full batches are held batches ----

  /** A batch that pacing holds back: its timer was set, when the bucket was last refilled, for the missing tokens. */
  predicate Held(s: State) {
    && s.Paced() && s.buffer != [] && s.armed
    && s.Pace().rate > 0.0 && s.delay == CanPacing.Wait(s.bits as real - s.bucket.tokens, s.Pace().rate)
  }

  /** Whatever a flush does not let through is held, with everything but the bucket and the timer as before. */
  lemma FlushHeld(s: State, env: Env)
    ensures var t := Flush(s, env);
            t.buffer != [] ==>
              && Held(t) && t.bucket == CanPacing.Refill(s.bucket, s.Pace(), env.now)
              && t.buffer == s.buffer && t.bits == s.bits && t.bitrate == s.bitrate && t.fates == s.fates
              && !Leaves(s, env)
  {
    hide CanPacing.Wait, CanPacing.Earned, CanRate.Updated;
    PacePositive(s.bitrate);
  }

  predicate FullIsHeld(s: State) { s.Full() ==> Held(s) }

  lemma StepFullIsHeld(s: State, e: Event)
    ensures FullIsHeld(Step(s, e))
  {
    hide Flush, Drain, Append, Held;
    match e
    case Received(f, queue, first, second) =>
      FlushHeld(s, first);
      var a := if s.Full() then Flush(s, first) else s;
      FlushHeld(Drain(Append(a, f), queue), second);
    case Expired(env) => FlushHeld(s, env);
    case Disconnected(now) =>
    case Connected(now) =>
  }

  lemma {:induction false} RunFullIsHeld(s: State, events: seq<Event>)
    requires FullIsHeld(s)
    ensures FullIsHeld(Final(s, events))
    decreases |events|
  {
    hide FullIsHeld, Step;
    if events != [] {
      StepFullIsHeld(s, events[0]);
      RunFullIsHeld(Step(s, events[0]), events[1..]);
    }
  }

  /** In every reachable state a full batch is one that pacing holds back, whichever handler flushed it. */
  lemma FullBatchIsHeld(bitrate: nat, shapes: bool, now: real, events: seq<Event>)
    ensures FullIsHeld(Final(Created(bitrate, shapes, now), events))
  {
    RunFullIsHeld(Created(bitrate, shapes, now), events);
  }

  // ---- Held batches leave ----

  /** No timer fires early: the batch's timer was set when the bucket was last refilled. */
  predicate Timely(s: State, e: Event) { e.Expired? && Held(s) ==> e.env.now >= s.bucket.last + s.delay }

  ghost predicate RunsTimely(s: State, events: seq<Event>)
    decreases |events|
  {
    events == [] || (Timely(s, events[0]) && RunsTimely(Step(s, events[0]), events[1..]))
  }

  function Expiries(events: seq<Event>): (n: nat) {
    if events == [] then 0 else (if events[0].Expired? then 1 else 0) + Expiries(events[1..])
  }

  /** The batch waiting in `s` has left by `t`, as the next one; `discards` tells whether a reconnect may do it. */
  predicate Left(s: State, t: State, discards: bool) {
    |s.fates| < |t.fates| && s.fates == t.fates[..|s.fates|] && t.fates[|s.fates|].datagram == s.buffer
    && (discards || !t.fates[|s.fates|].Discarded?)
  }

  lemma FlushExtends(s: State, env: Env)
    ensures s.fates <= Flush(s, env).fates
    ensures Leaves(s, env) ==> Left(s, Flush(s, env), false)
  {
    FlushOutcome(s, env);
    hide Flush, Leaves;
  }

  lemma ReceiveExtends(s: State, f: Frame, queue: seq<Frame>, first: Env, second: Env)
    ensures var a := if s.Full() then Flush(s, first) else s;
            a.fates <= Receive(s, f, queue, first, second).fates
  {
    hide Flush, Drain;
    var a := if s.Full() then Flush(s, first) else s;
    DrainSends(Append(a, f), queue);
    FlushExtends(Drain(Append(a, f), queue), second);
  }

  lemma StepExtends(s: State, e: Event)
    ensures s.fates <= Step(s, e).fates
  {
    hide Flush, Receive, Leaves, Left;
    match e
    case Received(f, queue, first, second) =>
      FlushExtends(s, first);
      ReceiveExtends(s, f, queue, first, second);
    case Expired(env) => FlushExtends(s, env);
    case Disconnected(now) =>
    case Connected(now) =>
  }

  lemma {:induction false} RunExtends(s: State, events: seq<Event>)
    ensures s.fates <= Final(s, events).fates
    decreases |events|
  {
    hide Step;
    if events != [] {
      StepExtends(s, events[0]);
      RunExtends(Step(s, events[0]), events[1..]);
    }
  }

  /** The batch is the same and still held. */
  predicate StillHeld(s: State, t: State) {
    && Held(t) && t.buffer == s.buffer && t.bits == s.bits && t.bitrate == s.bitrate && t.fates == s.fates
  }

  /** How many expiries a held batch can outlast: one, or none once the bucket nearly pays. */
  predicate NearlyPaid(s: State) { CanPacing.NearlyPays(s.bucket, s.Pace(), s.bits) }

  predicate Affordable(s: State) { s.bits as real <= s.Pace().capacity }

  /** A flush lets a held batch go or keeps holding it, never further from being paid. */
  lemma HeldFlush(s: State, env: Env)
    requires Held(s) && Affordable(s) && s.bucket.last <= s.clock <= env.now
    ensures var t := Flush(s, env);
            Left(s, t, false) || (StillHeld(s, t) && (NearlyPaid(s) ==> NearlyPaid(t)))
  {
    hide CanPacing.Wait, CanPacing.Refill, CanPacing.PaceOf, CanPacing.NearlyPays, Flush, Leaves;
    FlushHeld(s, env);
    FlushExtends(s, env);
    FlushOutcome(s, env);
    if NearlyPaid(s) { CanPacing.RefillStillPays(s.bucket, s.Pace(), s.bits, env.now); }
  }

  /** The first timely expiry leaves less than a nanosecond's refill to pay, the second one nothing. */
  lemma HeldExpiry(s: State, env: Env)
    requires Held(s) && Affordable(s) && env.now >= s.bucket.last + s.delay
    ensures var t := Flush(s, env);
            Left(s, t, false) || (StillHeld(s, t) && NearlyPaid(t) && !NearlyPaid(s))
  {
    hide CanPacing.Wait, CanPacing.Refill, CanPacing.PaceOf, CanPacing.NearlyPays, Flush;
    FlushHeld(s, env);
    FlushExtends(s, env);
    FlushOutcome(s, env);
    CanPacing.FirstExpiry(s.bucket, s.Pace(), s.bits, env.now);
    if NearlyPaid(s) { CanPacing.SecondExpiry(s.bucket, s.Pace(), s.bits, env.now); }
  }

  lemma HeldStep(s: State, e: Event)
    requires Inv(s) && Enabled(s, e) && Held(s) && Affordable(s) && Timely(s, e) && (s.Full() || !e.Received?)
    ensures var t := Step(s, e);
            || Left(s, t, Reconnects(e))
            || (&& StillHeld(s, t)
                && if e.Expired? then NearlyPaid(t) && !NearlyPaid(s) else NearlyPaid(s) ==> NearlyPaid(t))
  {
    hide OpenInv, Flush, Receive, StillHeld, NearlyPaid, Affordable, CanPacing.Inv, CanPacing.Wait, CanPacing.PaceOf;
    match e
    case Received(f, queue, first, second) => HeldReception(s, f, queue, first, second);
    case Expired(env) => HeldExpiry(s, env);
    case Disconnected(now) =>
    case Connected(now) =>
  }

  /** A reception first tries to flush the full batch; it goes on only if the batch has left. */
  lemma HeldReception(s: State, f: Frame, queue: seq<Frame>, first: Env, second: Env)
    requires Inv(s) && Held(s) && Affordable(s) && s.Full() && s.clock <= first.now
    ensures var t := Receive(s, f, queue, first, second);
            Left(s, t, false) || (StillHeld(s, t) && (NearlyPaid(s) ==> NearlyPaid(t)))
  {
    hide Flush, Drain, CanPacing.Inv, CanPacing.Wait, CanPacing.PaceOf, Held, NearlyPaid, Affordable;
    HeldFlush(s, first);
    ReceiveExtends(s, f, queue, first, second);
  }

  /**
   A held batch outlasts at most one timely expiry of its timer, whatever happens in between;
   a batch that is not full can grow, so for it nothing is received in between.
   */
  lemma {:induction false} HeldLeaves(s: State, events: seq<Event>, discards: bool)
    requires Inv(s) && Held(s) && Affordable(s) && IsRun(s, events) && RunsTimely(s, events)
    requires s.Full() || forall i :: 0 <= i < |events| ==> !events[i].Received?
    requires discards || forall i :: 0 <= i < |events| ==> !Reconnects(events[i])
    requires Expiries(events) >= if NearlyPaid(s) then 1 else 2
    ensures Left(s, Final(s, events), discards)
    decreases |events|
  {
    hide Inv, Held, Affordable, NearlyPaid, Step, Enabled, Timely, Reconnects;
    var e, others := events[0], events[1..];
    var t := Step(s, e);
    forall i | 0 <= i < |others| ensures others[i] == events[i + 1] {}
    HeldStep(s, e);
    if Left(s, t, Reconnects(e)) {
      RunExtends(t, others);
    } else {
      StepKeepsInv(s, e);
      SameCost(s, t);
      HeldLeaves(t, others, discards);
    }
  }

  lemma SameCost(s: State, t: State)
    requires StillHeld(s, t)
    ensures Affordable(t) <==> Affordable(s)
  {}

  /**
   Progress over every run: at a supported bitrate and with classic frames, a held batch (and so every
   full one, by FullBatchIsHeld) has left by the second expiry of its timer, in whatever order
   expiries, receptions and reconnects come; without a reconnect it is not a discarded one.
   */
  lemma ClassicBatchesLeave(bitrate: nat, shapes: bool, now: real, events: seq<Event>, more: seq<Event>, discards: bool)
    requires bitrate in {125000, 250000, 500000, 1000000} && IsRun(Created(bitrate, shapes, now), events)
    requires var t := Final(Created(bitrate, shapes, now), events);
             && Classic(t.accepted) && Held(t) && IsRun(t, more) && RunsTimely(t, more) && Expiries(more) >= 2
             && (t.Full() || forall i :: 0 <= i < |more| ==> !more[i].Received?)
    requires discards || forall i :: 0 <= i < |more| ==> !Reconnects(more[i])
    ensures var t := Final(Created(bitrate, shapes, now), events); Left(t, Final(t, more), discards)
  {
    var s := Created(bitrate, shapes, now);
    var t := Final(s, events);
    Reached(bitrate, shapes, now, events);
    RunKeepsSetup(s, events);
    BufferIsClassic(t);
    ClassicBatchFits(t);
    hide Final, IsRun, Inv, Held, Classic, RunsTimely, Expiries, Reconnects, CanPacing.PaceOf;
    HeldLeaves(t, more, discards);
  }

  /** In particular a full batch has left after two expiries in a row, each not before its time. */
  lemma FullBatchLeaves(bitrate: nat, shapes: bool, now: real, events: seq<Event>, e1: Env, e2: Env)
    requires bitrate in {125000, 250000, 500000, 1000000} && IsRun(Created(bitrate, shapes, now), events)
    requires var t := Final(Created(bitrate, shapes, now), events);
             && Classic(t.accepted) && t.Full() && t.clock <= e1.now <= e2.now
             && e1.now >= t.bucket.last + t.delay && e2.now >= e1.now + Flush(t, e1).delay
    ensures var t := Final(Created(bitrate, shapes, now), events);
            Flush(t, e1).buffer == [] || Flush(Flush(t, e1), e2).buffer == []
  {
    var t := Final(Created(bitrate, shapes, now), events);
    FullBatchIsHeld(bitrate, shapes, now, events);
    Reached(bitrate, shapes, now, events);
    RunKeepsSetup(Created(bitrate, shapes, now), events);
    BufferIsClassic(t);
    ClassicBatchFits(t);
    hide Final, IsRun, Inv, Classic, CanPacing.PaceOf, CanPacing.Wait, Flush, NearlyPaid;
    var u := Flush(t, e1);
    HeldExpiry(t, e1);
    FlushHeld(t, e1);
    if u.buffer != [] {
      FlushOutcome(t, e1);
      HeldExpiry(u, e2);
      FlushOutcome(u, e2);
    }
  }

  // ---- Batches that never leave ----

  const QUIET := Env(0.0, false, true, false)

  /** The first reception at 500 kbit/s: a 64-byte frame with eleven more of them waiting in the queue. */
  ghost function LongBurst(f: Frame): (e: Event) { Received(f, seq(BATCH_MAX - 1, _ => f), QUIET, QUIET) }

  lemma BurstIsEnabled(f: Frame)
    ensures IsRun(Created(500000, false, 0.0), [LongBurst(f)])
    ensures Final(Created(500000, false, 0.0), [LongBurst(f)]) == Step(Created(500000, false, 0.0), LongBurst(f))
  {
    var s, e := Created(500000, false, 0.0), LongBurst(f);
    assert [e][1..] == [];
    hide Step;
    assert IsRun(Step(s, e), []) && Final(Step(s, e), []) == Step(s, e);
  }

  lemma FirstAppend(f: Frame)
    ensures var s := Created(500000, false, 0.0);
            var b := Append(s, f);
            && OpenInv(b) && b.buffer != [] && |Frames(b.buffer)| == 1 && b.accepted == [f]
            && b == s.(buffer := b.buffer, bits := b.bits, meter := b.meter, accepted := b.accepted)
  {
    hide Frames, Record, RecordBits, CanRate.Averaged, OpenInv;
    var s := Created(500000, false, 0.0);
    CreatedInv(500000, false, 0.0);
    AppendKeeps(s, f);
    NoFrames();
    WholeSnoc([], f);
    assert [] + Record(f) == Record(f);
  }

  lemma NoFrames()
    ensures Frames([]) == [] && Whole([])
  {}

  /** The handler takes the frame and the whole queue. */
  lemma BurstIsTaken(f: Frame)
    ensures var s := Created(500000, false, 0.0);
            var d := Drain(Append(s, f), LongBurst(f).queue);
            && OpenInv(d) && d == s.(buffer := d.buffer, bits := d.bits, meter := d.meter, accepted := d.accepted)
            && d.accepted == seq(BATCH_MAX, _ => f)
  {
    hide Drain, Append, Created, Frames, OpenInv;
    var b, queue := Append(Created(500000, false, 0.0), f), LongBurst(f).queue;
    FirstAppend(f);
    DrainKeeps(b, queue);
    DrainTakes(b, queue);
    assert queue[..BATCH_MAX - 1] == queue;
  }

  /** The burst fills the batch, before the flush at the end of the handler. */
  lemma BurstFills(f: Frame)
    ensures var d := Drain(Append(Created(500000, false, 0.0), f), LongBurst(f).queue);
            Frames(d.buffer) == seq(BATCH_MAX, _ => f.Plain())
  {
    var d := Drain(Append(Created(500000, false, 0.0), f), LongBurst(f).queue);
    BurstIsTaken(f);
    hide Drain, Append, Frames, BatchInv, ChargedInv, BucketInv, MeterInv;
    assert Frames(d.buffer) == Decoded(d.fates) + Frames(d.buffer) == Plain(d.accepted);
  }

  /** The batch costs more than a full bucket, so the flush at the end of the handler holds it. */
  lemma BurstIsHeld(f: Frame)
    requires |f.payload| == 64
    ensures var t := Step(Created(500000, false, 0.0), LongBurst(f));
            && t.Paced() && t.bitrate == 500000 && t.fates == [] && Frames(t.buffer) == seq(BATCH_MAX, _ => f.Plain())
  {
    var s := Created(500000, false, 0.0);
    var d := Drain(Append(s, f), LongBurst(f).queue);
    BurstIsTaken(f);
    BurstFills(f);
    LongestCost(Frames(d.buffer));
    hide Flush, Frames, Cost, Drain, Append, LedgerInv, ChargedInv, BucketInv, MeterInv;
    FlushHolds(d, QUIET);
    FlushKeepsSetup(d, QUIET);
  }

  /**
   The run exists: after the burst twelve frames wait at 500 kbit/s, and until the next reconnect
   nothing ever leaves.
   */
  lemma LongBurstIsStuck(f: Frame, more: seq<Event>)
    requires |f.payload| == 64
    requires forall i :: 0 <= i < |more| ==> !Reconnects(more[i])
    ensures var s := Created(500000, false, 0.0);
            var t := Final(s, [LongBurst(f)]);
            && IsRun(s, [LongBurst(f)]) && t.Paced() && Longest(Frames(t.buffer)) && |Frames(t.buffer)| == BATCH_MAX
            && Final(t, more).buffer == t.buffer && Final(t, more).fates == []
  {
    hide Step, Frames, Created, CanPacing.PaceOf, Inv;
    BurstIsEnabled(f);
    BurstIsHeld(f);
    Reached(500000, false, 0.0, [LongBurst(f)]);
    LongestBatchIsHeldForever(Final(Created(500000, false, 0.0), [LongBurst(f)]), more);
  }
}

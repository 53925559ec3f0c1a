/** The CAN bridge as an object: the receive handler, the batch, its timer, the pacer and the meter. */
module CanBridge {
  import opened Common
  import opened CanWire
  import opened CanBatch
  import CanPacing
  import CanRate

  /** The fields of the source, those of the pacer and of the bus emulation in one record each. */
  class Bridge {
    const bitrate: nat
    const vcanShaped: bool
    var client: bool
    var rxPaused: bool
    var batch: seq<byte>
    var batchBits: nat
    var timerArmed: bool
    var timerDelay: real
    var bucket: CanPacing.Bucket
    var meter: CanRate.Meter
    ghost var clock: real
    ghost var accepted: seq<Frame>
    ghost var fates: seq<Fate>

    ghost function Current(): (s: State)
      reads this
    {
      State(bitrate, vcanShaped, clock, client, rxPaused, batch, batchBits, timerArmed, timerDelay, bucket, meter,
            accepted, fates)
    }

    ghost predicate Valid()
      reads this
    {
      Inv(Current())
    }

    constructor (bitrate: nat, shapes: bool, now: real)
      ensures Valid() && Current() == Created(bitrate, shapes, now)
    {
      this.bitrate := bitrate;
      var shaped := bitrate != 0 && shapes;
      vcanShaped := shaped;
      if shaped {
        var rate := CanRate.RateFor(CanRate.INITIAL_AVERAGE, bitrate);
        meter := CanRate.Meter(CanRate.INITIAL_AVERAGE, rate, now, [CanRate.Attempt(now, rate, 0)]);
      } else {
        meter := CanRate.Meter(if bitrate != 0 then CanRate.INITIAL_AVERAGE else 0.0, 0, 0.0, []);
      }
      client, rxPaused := true, false;
      batch, batchBits, timerArmed, timerDelay := [], 0, false, 0.0;
      bucket := CanPacing.Bucket(bitrate as real * CanPacing.BUCKET_MS / 1000.0, now, []);
      clock, accepted, fates := now, [], [];
      CreatedInv(bitrate, shapes, now);
    }

    // ---- Handlers ----

    /** The receive handler of the CAN socket; tells how many queued frames it took. */
    method OnFrame(f: Frame, queue: seq<Frame>, first: Env, second: Env) returns (taken: nat)
      requires Valid() && clock <= first.now <= second.now
      modifies this
      ensures Valid() && Current() == Receive(old(Current()), f, queue, first, second)
      ensures taken <= |queue|
    {
      hide Inv, Flush, Append, Drain;
      ReceiveKeeps(Current(), f, queue, first, second);
      taken := 0;
      if |batch| >= BATCH_MAX * RECORD_SIZE {
        FlushBatch(first);
        if |batch| >= BATCH_MAX * RECORD_SIZE {
          return;
        }
      }
      AppendToBatch(f);
      taken := DrainSocket(queue);
      if |batch| >= BATCH_MAX * RECORD_SIZE {
        FlushBatch(second);
      } else {
        if !timerArmed {
          timerDelay, timerArmed := HOLD_OFF, true;
        }
        clock := second.now;
      }
    }

    /** The batch timer's expiry. */
    method OnBatchTimer(env: Env)
      requires Valid() && timerArmed && clock <= env.now
      modifies this
      ensures Valid() && Current() == Flush(old(Current()), env)
    {
      hide Flush, OpenInv;
      FlushKeeps(Current(), env);
      FlushBatch(env);
    }

    method DisconnectEndpoint(now: real)
      requires Valid() && clock <= now
      modifies this
      ensures Valid() && Current() == Disconnect(old(Current()), now)
    {
      hide Inv;
      DisconnectKeeps(Current(), now);
      RetireEndpoint(now);
    }

    method ConnectEndpoint(now: real)
      requires Valid() && clock <= now
      modifies this
      ensures Valid() && Current() == Connect(old(Current()), now)
    {
      hide Inv, Disconnect;
      DisconnectKeeps(Current(), now);
      RetireEndpoint(now);
      client := true;
    }

    // ---- What they share ----

    /** Discards the batch and starts over with a full bucket. */
    method RetireEndpoint(now: real)
      modifies this
      ensures Current() == Disconnect(old(Current()), now)
    {
      if batch != [] {
        fates := fates + [Discarded(batch)];
      }
      batch, batchBits, timerArmed := [], 0, false;
      bucket := CanPacing.Bucket(bitrate as real * CanPacing.BUCKET_MS / 1000.0, now, []);
      rxPaused, client, clock := false, false, now;
    }

    method AppendToBatch(f: Frame)
      modifies this`batch, this`batchBits, this`meter, this`accepted
      ensures Current() == Append(old(Current()), f)
    {
      hide Record, RecordBits;
      var msg := Record(f);
      batch := batch + msg;
      var bits := RecordBits(msg);
      batchBits := batchBits + bits;
      meter := meter.(average := meter.average + (bits as real - meter.average) / 64.0);
      accepted := accepted + [f];
    }

    method DrainSocket(queue: seq<Frame>) returns (taken: nat)
      modifies this`batch, this`batchBits, this`meter, this`accepted
      ensures Current() == Drain(old(Current()), queue)
      ensures taken <= |queue| && accepted == old(accepted) + queue[..taken]
    {
      hide Record, RecordBits;
      taken := 0;
      while |batch| < BATCH_MAX * RECORD_SIZE && taken < |queue|
        invariant taken <= |queue| && accepted == old(accepted) + queue[..taken]
        invariant Drain(Current(), queue[taken..]) == Drain(old(Current()), queue)
        decreases |queue| - taken
      {
        assert queue[taken..][1..] == queue[taken + 1..];
        AppendToBatch(queue[taken]);
        taken := taken + 1;
      }
    }

    /** Ships the batch, or leaves it to its timer and asks the socket to pause. */
    method FlushBatch(env: Env)
      modifies this
      ensures Current() == Flush(old(Current()), env)
    {
      hide Ship, CanPacing.PaceOf, CanPacing.Wait;
      timerArmed, clock := false, env.now;
      if batch == [] {
        return;
      }
      if bitrate != 0 && !vcanShaped {
        PacePositive(bitrate);
        Refill(env.now);
        if bucket.tokens < batchBits as real {
          timerDelay := CanPacing.Wait(batchBits as real - bucket.tokens, CanPacing.PaceOf(bitrate).rate);
          timerArmed, rxPaused := true, rxPaused || env.pauses;
          return;
        }
        bucket := CanPacing.Bucket(bucket.tokens - batchBits as real, bucket.last,
                                   bucket.shipped + [CanPacing.Shipment(bucket.last, batchBits)]);
      }
      ShipBatch(env);
    }

    /** Adds what the bucket earned since the last flush, up to its capacity. */
    method Refill(now: real)
      modifies this`bucket
      ensures bucket == CanPacing.Refill(old(bucket), CanPacing.PaceOf(bitrate), now)
    {
      var p := CanPacing.PaceOf(bitrate);
      hide CanPacing.PaceOf;
      var elapsed := now - bucket.last;
      var filled := bucket.tokens + elapsed * p.rate;
      bucket := bucket.(tokens := if p.capacity <= filled then p.capacity else filled, last := now);
    }

    /** Hands the batch to the UDP client, if there is one, and forgets it whatever the client answers. */
    method ShipBatch(env: Env)
      modifies this
      ensures Current() == Ship(old(Current()), env)
    {
      hide CanRate.Updated;
      if client {
        fates := fates + [if env.takes then Sent(batch) else Rejected(batch)];
      } else {
        fates := fates + [Unsent(batch)];
      }
      batch, batchBits, rxPaused := [], 0, false;
      UpdateVcanRateLimit(env.now, env.installs);
    }

    method UpdateVcanRateLimit(now: real, installs: bool)
      modifies this`meter
      ensures meter == if vcanShaped && bitrate != 0 then CanRate.Updated(old(meter), bitrate, now, installs)
                       else old(meter)
    {
      hide CanRate.RateFor;
      if !vcanShaped || bitrate == 0 {
        return;
      }
      var wanted := CanRate.RateFor(meter.average, bitrate);
      var installed := meter.installed;
      if wanted < installed {
        if now - meter.updated < CanRate.DECREASE_PERIOD {
          return;
        }
        if (installed - wanted) * 100 < installed * CanRate.HYSTERESIS_PCT {
          return;
        }
      } else {
        if now - meter.updated < CanRate.INCREASE_PERIOD {
          return;
        }
        if installed != 0 && (wanted - installed) * 100 < installed * CanRate.HYSTERESIS_PCT {
          return;
        }
      }
      meter := meter.(updated := now, attempts := meter.attempts + [CanRate.Attempt(now, wanted, installed)]);
      if installs {
        meter := meter.(installed := wanted);
      }
    }
  }
}

/** The manager and its runtime actions as they update the fields of `charge_bridge` in place. */
module ChargeBridge {
  import opened Common
  import opened ManagerProtocol

  /** The orders in which the source goes through its bridges to create and to register them. */
  const CREATION_ORDER: seq<Kind> := [Can0, Serial1, Serial2, Serial3, Plc, Bsp, Io, Heartbeat]
  const REGISTRATION_ORDER: seq<Kind> := [Can0, Serial1, Serial2, Serial3, Bsp, Plc, Heartbeat, Io]

  predicate Distinct(order: seq<Kind>) { forall i, j :: 0 <= i < j < |order| ==> order[i] != order[j] }

  /** Each order names every kind of bridge once. */
  lemma CreationOrderIsComplete(k: Kind)
    ensures k in CREATION_ORDER && Distinct(CREATION_ORDER)
  {
    var order := CREATION_ORDER;
    assert order[0] == Can0 && order[1] == Serial1 && order[2] == Serial2 && order[3] == Serial3;
    assert order[4] == Plc && order[5] == Bsp && order[6] == Io && order[7] == Heartbeat;
  }

  lemma RegistrationOrderIsComplete(k: Kind)
    ensures k in REGISTRATION_ORDER && Distinct(REGISTRATION_ORDER)
  {
    var order := REGISTRATION_ORDER;
    assert order[0] == Can0 && order[1] == Serial1 && order[2] == Serial2 && order[3] == Serial3;
    assert order[4] == Bsp && order[5] == Plc && order[6] == Heartbeat && order[7] == Io;
  }

  /** The bridges of a set that a loop over an order has passed. */
  ghost function Passed(order: seq<Kind>, i: nat, kinds: set<Kind>): (p: set<Kind>)
    requires i <= |order|
  {
    set k | k in kinds && k in order[..i]
  }

  lemma PassNext(order: seq<Kind>, i: nat, kinds: set<Kind>)
    requires Distinct(order) && i < |order|
    ensures order[i] !in Passed(order, i, kinds)
    ensures Passed(order, i + 1, kinds) == Passed(order, i, kinds) + (if order[i] in kinds then {order[i]} else {})
  {
    assert order[..i + 1] == order[..i] + [order[i]];
  }

  lemma PassedNone(order: seq<Kind>, kinds: set<Kind>)
    ensures Passed(order, 0, kinds) == {}
  {}

  lemma PassedAll(order: seq<Kind>, kinds: set<Kind>)
    requires forall k :: k in kinds ==> k in order
    ensures Passed(order, |order|, kinds) == kinds
  {
    assert order[..|order|] == order;
  }

  lemma LoopOverCreationOrder(kinds: set<Kind>)
    ensures Distinct(CREATION_ORDER)
    ensures Passed(CREATION_ORDER, 0, kinds) == {} && Passed(CREATION_ORDER, |CREATION_ORDER|, kinds) == kinds
  {
    forall k: Kind ensures k in CREATION_ORDER && Distinct(CREATION_ORDER) { CreationOrderIsComplete(k); }
    PassedNone(CREATION_ORDER, kinds);
    PassedAll(CREATION_ORDER, kinds);
  }

  lemma LoopOverRegistrationOrder(kinds: set<Kind>)
    ensures Distinct(REGISTRATION_ORDER)
    ensures Passed(REGISTRATION_ORDER, 0, kinds) == {}
    ensures Passed(REGISTRATION_ORDER, |REGISTRATION_ORDER|, kinds) == kinds
  {
    forall k: Kind ensures k in REGISTRATION_ORDER && Distinct(REGISTRATION_ORDER) { RegistrationOrderIsComplete(k); }
    PassedNone(REGISTRATION_ORDER, kinds);
    PassedAll(REGISTRATION_ORDER, kinds);
  }

  /** All registrations succeed if none is rejected. */
  lemma NothingRejected(existing: set<Kind>, registers: set<Kind>, registered: set<Kind>)
    ensures existing - (registers - registered) == {} <==> existing <= registers && existing !! registered
  {
    var rejected := existing - (registers - registered);
    forall k | k in existing ensures k in rejected <==> k !in registers || k in registered {}
  }

  /** The fields of the source, those of one purpose in one record; the history fields are in their records. */
  class Manager {
    const configured: set<Kind>
    var run: bool
    var clock: real
    var place: Place
    var session: Session
    var watch: Watch
    var isConnected: bool
    var actions: seq<Action>
    var bridges: Bridges

    ghost function Current(): (s: State)
      reads this
    {
      State(configured, run, clock, place, session, watch, isConnected, actions, bridges)
    }

    ghost predicate Valid()
      reads this
    {
      Inv(Current())
    }

    /** `manage`: creates the bridges eagerly and starts with everything down. */
    constructor (configured: set<Kind>, host: Host, now: real)
      ensures Valid() && Initial(Current()) && this.configured == configured && clock == now
      ensures bridges.existing == configured * host.builds
    {
      this.configured := configured;
      run, clock, place, isConnected, actions := true, now, Idle, false, [];
      session := Session(false, false, false, Pending, false, Pending);
      watch := Watch(0, None, None, []);
      var hopeless := configured * host.hopeless - host.builds;
      bridges := Bridges(configured * host.builds, {}, {}, hopeless, false, false, false);
    }

    // ---- The manager thread ----

    /** One call of the manager's `action`, up to its end or the first release of the monitor. */
    method Cycle(now: real)
      requires Valid() && run && place.Idle? && now >= clock
      modifies this
      ensures Valid() && Current() == BeginCycle(old(Current()), now)
    {
      hide Inv, ProbePart;
      BeginCycleKeeps(Current(), now);
      clock := now;
      if session.stopInFlight {
        if session.stop.Pending? {
          return;
        }
        session := session.(stopInFlight := false, started := false, wasConnected := false);
        watch := watch.(failures := 0, nextProbe := None, nextRetry := None);
        SetRuntimeConnectionStatus(false);
      }
      ProbeOrFinish(now);
    }

    /** The end of a liveness probe and the rest of its cycle. */
    method ProbeAnswer(alive: bool)
      requires Valid() && place.Probing?
      modifies this
      ensures Valid() && Current() == EndProbe(old(Current()), alive)
    {
      hide Inv, RestOfCycle, ManagerProtocol.CountProbe;
      EndProbeKeeps(Current(), alive);
      var now := place.now;
      place := Idle;
      if run {
        CountProbe(now, alive);
        FinishCycle(now);
      }
    }

    /** The end of the firmware update; success posts the start. */
    method FirmwareResult(ok: bool)
      requires Valid() && place.Updating?
      modifies this
      ensures Valid() && Current() == EndUpdate(old(Current()), ok)
    {
      hide Inv;
      EndUpdateKeeps(Current(), ok);
      place := Idle;
      if ok {
        session := session.(startInFlight := true, start := Pending);
        actions := actions + [StartRuntime];
      }
    }

    method RequestShutdown()
      requires Valid()
      modifies this
      ensures Valid() && Current() == Step(old(Current()), ShutdownRequested)
    {
      hide Inv;
      StepKeepsInv(Current(), ShutdownRequested);
      run := false;
    }

    method SetRuntimeConnectionStatus(connected: bool)
      modifies this`isConnected, this`actions
      ensures Current() == old(Current()).SetStatus(connected)
    {
      if Heartbeat !in configured {
        isConnected := connected;
        actions := actions + [Publish(connected)];
      }
    }

    /** Starts a probe that is due, which ends this part of the cycle; without a deadline it only sets one. */
    method ProbeOrFinish(now: real)
      modifies this
      ensures Current() == ProbePart(old(Current()), now)
    {
      hide RestOfCycle;
      if Heartbeat !in configured && session.started && session.wasConnected && isConnected {
        if watch.nextProbe.None? {
          watch := watch.(nextProbe := Some(now + BASE_CYCLE));
        } else if now >= watch.nextProbe.value {
          watch := watch.(nextProbe := Some(now + BASE_CYCLE));
          place := Probing(now);
          return;
        }
      }
      FinishCycle(now);
    }

    method CountProbe(now: real, alive: bool)
      modifies this
      ensures Current() == ManagerProtocol.CountProbe(old(Current()), now, alive)
    {
      hide State.SetStatus;
      watch := watch.(probes := watch.probes + [Probe(now, alive)],
                      failures := if alive then 0 else watch.failures + 1);
      if watch.failures >= FAILURE_LIMIT {
        watch := watch.(failures := 0, nextProbe := None);
        SetRuntimeConnectionStatus(false);
      }
    }

    method FinishCycle(now: real)
      modifies this
      ensures Current() == RestOfCycle(old(Current()), now)
    {
      hide RetryPart, StopPart, StartPart;
      RetryBridges(now);
      StopIfDisconnected();
      StartIfDown();
    }

    method RetryBridges(now: real)
      modifies this
      ensures Current() == RetryPart(old(Current()), now)
    {
      if session.started && session.wasConnected && isConnected {
        if watch.nextRetry.None? {
          watch := watch.(nextRetry := Some(now + BASE_CYCLE));
        } else if now >= watch.nextRetry.value {
          watch := watch.(nextRetry := Some(now + BASE_CYCLE));
          actions := actions + [RetryMissing];
        }
      }
    }

    method StopIfDisconnected()
      modifies this
      ensures Current() == StopPart(old(Current()))
    {
      if session.wasConnected && !isConnected {
        session := session.(stopInFlight := true, stop := Pending);
        actions := actions + [StopRuntime];
      }
    }

    method StartIfDown()
      modifies this
      ensures Current() == StartPart(old(Current()))
    {
      hide State.SetStatus;
      if session.wasConnected {
        return;
      }
      if !session.startInFlight {
        place := Updating;
      } else if session.start.Ready? {
        session := session.(startInFlight := false);
        if session.start.ok {
          session := session.(started := true, wasConnected := true);
          watch := watch.(probes := []);
          SetRuntimeConnectionStatus(true);
        }
      }
    }

    // ---- The event loop ----

    /** One round of the event loop's `run_actions`. */
    method RunNextAction(host: Host)
      requires Valid() && actions != []
      modifies this
      ensures Valid() && Current() == RunAction(old(Current()), host)
    {
      hide Inv, RunStart, RunStop, Retry, SetFlags;
      RunActionKeeps(Current(), host);
      var action := actions[0];
      actions := actions[1..];
      match action
      case StartRuntime => StartAction(host);
      case StopRuntime => StopAction(host);
      case RetryMissing => RetryAction(host);
      case Publish(connected) => SetBridgesConnectionStatus(connected);
    }

    /** The heartbeat service's callback. */
    method HeartbeatCallback(connected: bool)
      requires Valid() && Heartbeat in bridges.existing
      modifies this
      ensures Valid() && Current() == Step(old(Current()), HeartbeatReported(connected))
    {
      hide Inv, SetFlags;
      StepKeepsInv(Current(), HeartbeatReported(connected));
      isConnected := connected;
      SetBridgesConnectionStatus(connected);
    }

    /** `create_internal_runtime`: one bridge after another. */
    method CreateInternalRuntime(host: Host)
      modifies this`bridges
      ensures bridges == Create(old(bridges), configured, host)
    {
      ghost var missing := configured - bridges.existing - bridges.disabled;
      ghost var built, hopeless := missing * host.builds, missing * host.hopeless - host.builds;
      var n := |CREATION_ORDER|;
      LoopOverCreationOrder(built);
      LoopOverCreationOrder(hopeless);
      hide Passed, CREATION_ORDER;
      for i := 0 to n
        invariant bridges == old(bridges).(existing := old(bridges.existing) + Passed(CREATION_ORDER, i, built),
                                           disabled := old(bridges.disabled) + Passed(CREATION_ORDER, i, hopeless))
      {
        PassNext(CREATION_ORDER, i, built);
        PassNext(CREATION_ORDER, i, hopeless);
        var k := CREATION_ORDER[i];
        if k in configured && k !in bridges.existing && k !in bridges.disabled {
          if k in host.builds {
            bridges := bridges.(existing := bridges.existing + {k});
          } else if k in host.hopeless {
            bridges := bridges.(disabled := bridges.disabled + {k});
          }
        }
      }
    }

    /** The body of the action that `start_internal_runtime` posts. */
    method StartAction(host: Host)
      modifies this`bridges, this`session
      ensures Current() == RunStart(old(Current()), host)
    {
      hide Create, Activate;
      CreateInternalRuntime(host);
      if configured != {} && bridges.existing == {} {
        session := session.(start := Ready(false));
        return;
      }
      if Heartbeat in configured && Heartbeat !in bridges.existing {
        session := session.(start := Ready(false));
        return;
      }
      var runtimeRegistered := ActivateRuntime(host);
      session := session.(start := Ready(runtimeRegistered));
    }

    /** Connects and registers all bridges, and unregisters them again if one of them fails. */
    method ActivateRuntime(host: Host) returns (ok: bool)
      modifies this`bridges
      ensures bridges == Activate(old(bridges), host) && ok == bridges.up
    {
      hide Register;
      ok := false;
      if bridges.existing <= host.connects {
        ok := RegisterInternalEvents(host);
      }
      if !ok {
        bridges := bridges.(registered := bridges.registered - bridges.existing);
      }
      bridges := bridges.(up := ok);
    }

    /** `register_internal_events`: one bridge after another; succeeds if every registration does. */
    method RegisterInternalEvents(host: Host) returns (all: bool)
      modifies this`bridges
      ensures all <==> old(bridges.existing <= host.registers && bridges.existing !! bridges.registered)
      ensures bridges == Register(old(bridges), host)
    {
      all := true;
      ghost var taken, twice := bridges.existing * host.registers, bridges.existing * bridges.registered;
      ghost var rejected := bridges.existing - (host.registers - bridges.registered);
      NothingRejected(bridges.existing, host.registers, bridges.registered);
      var n := |REGISTRATION_ORDER|;
      LoopOverRegistrationOrder(taken);
      LoopOverRegistrationOrder(twice);
      LoopOverRegistrationOrder(rejected);
      hide Passed, REGISTRATION_ORDER;
      for i := 0 to n
        invariant bridges == old(bridges).(
                    registered := old(bridges.registered) + Passed(REGISTRATION_ORDER, i, taken),
                    registeredTwice := old(bridges.registeredTwice) || Passed(REGISTRATION_ORDER, i, twice) != {})
        invariant all <==> Passed(REGISTRATION_ORDER, i, rejected) == {}
      {
        PassNext(REGISTRATION_ORDER, i, taken);
        PassNext(REGISTRATION_ORDER, i, twice);
        PassNext(REGISTRATION_ORDER, i, rejected);
        var k := REGISTRATION_ORDER[i];
        if k in bridges.existing {
          var ok := RegisterBridge(k, host);
          all := ok && all;
        }
      }
    }

    /** One registration; the event loop rejects a bridge that it already has. */
    method RegisterBridge(k: Kind, host: Host) returns (ok: bool)
      modifies this`bridges
      ensures ok <==> k in host.registers && k !in old(bridges.registered)
      ensures bridges == old(bridges.(registered := bridges.registered + (if ok then {k} else {}),
                                      registeredTwice := bridges.registeredTwice || k in bridges.registered))
    {
      ok := k in host.registers && k !in bridges.registered;
      bridges := bridges.(registered := bridges.registered + (if ok then {k} else {}),
                          registeredTwice := bridges.registeredTwice || k in bridges.registered);
    }

    /** The body of the action that `stop_internal_runtime` posts. */
    method StopAction(host: Host)
      modifies this`bridges, this`session
      ensures Current() == RunStop(old(Current()), host)
    {
      bridges := bridges.(registered := bridges.registered - bridges.existing, up := false);
      session := session.(stop := Ready(bridges.existing <= host.disconnects));
    }

    /** The body of the action that `retry_missing_bridges` posts. */
    method RetryAction(host: Host)
      modifies this`bridges
      ensures bridges == Retry(old(bridges), configured, isConnected, host)
    {
      hide Create, ActivateLate, SetFlags;
      bridges := bridges.(retriedWhileDown := bridges.retriedWhileDown || !bridges.up);
      if configured <= bridges.existing {
        return;
      }
      var before := bridges.existing;
      CreateInternalRuntime(host);
      ActivateLateBridges(bridges.existing - before, host);
      SetBridgesConnectionStatus(isConnected);
    }

    /** `activate_late_bridge`, one bridge after another. */
    method ActivateLateBridges(late: set<Kind>, host: Host)
      modifies this`bridges
      ensures bridges == ActivateLate(old(bridges), late, host)
    {
      ghost var tried := late * host.connects;
      ghost var active, twice := tried * host.registers - bridges.registered, tried * bridges.registered;
      ghost var dropped := late - active;
      var n := |CREATION_ORDER|;
      LoopOverCreationOrder(tried);
      LoopOverCreationOrder(active);
      LoopOverCreationOrder(twice);
      LoopOverCreationOrder(dropped);
      hide Passed, CREATION_ORDER;
      for i := 0 to n
        invariant bridges == old(bridges).(
                    existing := old(bridges.existing) - Passed(CREATION_ORDER, i, dropped),
                    registered := (old(bridges.registered) - Passed(CREATION_ORDER, i, tried))
                                  + Passed(CREATION_ORDER, i, active),
                    registeredTwice := old(bridges.registeredTwice) || Passed(CREATION_ORDER, i, twice) != {})
      {
        PassNext(CREATION_ORDER, i, tried);
        PassNext(CREATION_ORDER, i, active);
        PassNext(CREATION_ORDER, i, twice);
        PassNext(CREATION_ORDER, i, dropped);
        var k := CREATION_ORDER[i];
        if k in late {
          var ok := false;
          if k in host.connects {
            ok := RegisterBridge(k, host);
            if !ok {
              bridges := bridges.(registered := bridges.registered - {k});
            }
          }
          if !ok {
            bridges := bridges.(existing := bridges.existing - {k});
          }
        }
      }
    }

    method SetBridgesConnectionStatus(connected: bool)
      modifies this`bridges
      ensures bridges == SetFlags(old(bridges), connected)
    {
      bridges := bridges.(flagged := if connected then bridges.existing - {Heartbeat} else {});
    }
  }
}

/**
 The ChargeBridge manager as a transition system, for an endpoint with a fixed address.

 The manager thread runs cycles under the status monitor and posts actions to the FIFO queue of
 the event loop. It releases the monitor while it probes the device or updates its firmware, so a
 cycle is cut into steps at these two places; queued actions, heartbeat reports and a shutdown
 request may fall between any two steps.
 */
module ManagerProtocol {
  import opened Common

  datatype Kind = Can0 | Serial1 | Serial2 | Serial3 | Plc | Bsp | Io | Heartbeat

  datatype Action = StartRuntime | StopRuntime | RetryMissing | Publish(connected: bool)

  /** The state of a future: an exception counts as a failed result. */
  datatype Future = Pending | Ready(ok: bool)

  /** Where the manager thread is: between cycles, or inside one with the monitor released. */
  datatype Place = Idle | Probing(now: real) | Updating

  datatype Probe = Probe(time: real, alive: bool)

  /**
   How the host answers one action: the constructors that succeed, the missing bridges that can
   never be created here, the endpoints that connect, the registrations that succeed and the
   endpoints that disconnect without an exception.
   */
  datatype Host = Host(builds: set<Kind>, hopeless: set<Kind>, connects: set<Kind>, registers: set<Kind>,
                       disconnects: set<Kind>)

  /** `manager_base_cycle` in seconds and `liveness_probe_failure_limit`. */
  const BASE_CYCLE: real := 10.0
  const FAILURE_LIMIT: nat := 2

  /** The event loop's side: bridge objects, their registrations and the connection flags that are set. */
  datatype Bridges = Bridges(
    existing: set<Kind>, registered: set<Kind>, flagged: set<Kind>, disabled: set<Kind>,
    // History: whether the runtime is up, and whether something forbidden has happened.
    up: bool, registeredTwice: bool, retriedWhileDown: bool)

  /** What the manager thread knows about the runtime, and its two futures. */
  datatype Session = Session(
    started: bool, wasConnected: bool,
    startInFlight: bool, start: Future,
    stopInFlight: bool, stop: Future)

  /** The manager thread's deadlines, with the liveness probes since the last start as history. */
  datatype Watch = Watch(failures: nat, nextProbe: Option<real>, nextRetry: Option<real>, probes: seq<Probe>)

  datatype State = State(
    configured: set<Kind>,
    run: bool, clock: real, place: Place, session: Session, watch: Watch,
    // The status monitor and the action queue.
    isConnected: bool, queue: seq<Action>,
    bridges: Bridges)
  {
    predicate HasHeartbeat() { Heartbeat in configured }

    /** `needs_liveness_probe`. */
    predicate NeedsProbe() { !HasHeartbeat() && session.started && session.wasConnected && isConnected }

    function Post(a: Action): (s: State) { this.(queue := queue + [a]) }

    /** `set_runtime_connection_status`. */
    function SetStatus(connected: bool): (s: State) {
      if HasHeartbeat() then this else this.(isConnected := connected).Post(Publish(connected))
    }
  }

  // ---- Actions on the event loop ----

  /** `create_internal_runtime`: existing bridges are kept, disabled ones are not tried again. */
  function Create(b: Bridges, configured: set<Kind>, host: Host): (c: Bridges) {
    var missing := configured - b.existing - b.disabled;
    b.(existing := b.existing + missing * host.builds,
       disabled := b.disabled + (missing * host.hopeless - host.builds))
  }

  /** Registering all bridges; registering one that is registered already fails. */
  function Register(b: Bridges, host: Host): (c: Bridges) {
    b.(registered := b.registered + b.existing * host.registers,
       registeredTwice := b.registeredTwice || b.existing * b.registered != {})
  }

  function TearDown(b: Bridges): (c: Bridges) { b.(registered := b.registered - b.existing, up := false) }

  /** Connecting and registering all bridges, or none. */
  function Activate(b: Bridges, host: Host): (c: Bridges) {
    if !(b.existing <= host.connects) then TearDown(b)
    else if !(b.existing <= host.registers && b.existing !! b.registered) then TearDown(Register(b, host))
    else Register(b, host).(up := true)
  }

  /** There is something to start, and the liveness source exists if one is configured. */
  predicate CanStart(b: Bridges, configured: set<Kind>) {
    (configured != {} ==> b.existing != {}) && (Heartbeat in configured ==> Heartbeat in b.existing)
  }

  /** The action of `start_internal_runtime`. */
  function RunStart(s: State, host: Host): (t: State) {
    var c := Create(s.bridges, s.configured, host);
    if !CanStart(c, s.configured) then s.(bridges := c, session := s.session.(start := Ready(false)))
    else
      var b := Activate(c, host);
      s.(bridges := b, session := s.session.(start := Ready(b.up)))
  }

  /** The action of `stop_internal_runtime`; an exception while disconnecting fails the future only. */
  function RunStop(s: State, host: Host): (t: State) {
    s.(bridges := TearDown(s.bridges), session := s.session.(stop := Ready(s.bridges.existing <= host.disconnects)))
  }

  /** `set_bridges_cb_connection_status`; the heartbeat service has no such flag. */
  function SetFlags(b: Bridges, connected: bool): (c: Bridges) {
    b.(flagged := if connected then b.existing - {Heartbeat} else {})
  }

  /** `activate_late_bridge` for each late bridge: one that connects but cannot be registered is unregistered again. */
  function ActivateLate(b: Bridges, late: set<Kind>, host: Host): (c: Bridges) {
    var tried := late * host.connects;
    var active := tried * host.registers - b.registered;
    b.(existing := b.existing - (late - active), registered := (b.registered - tried) + active,
       registeredTwice := b.registeredTwice || tried * b.registered != {})
  }

  /** The action of `retry_missing_bridges`: a late bridge that cannot be activated is dropped. */
  function Retry(b: Bridges, configured: set<Kind>, connected: bool, host: Host): (c: Bridges) {
    var n := b.(retriedWhileDown := b.retriedWhileDown || !b.up);
    if configured <= n.existing then n
    else
      var c := Create(n, configured, host);
      SetFlags(ActivateLate(c, c.existing - n.existing, host), connected)
  }

  function RunAction(s: State, host: Host): (t: State)
    requires s.queue != []
  {
    var p := s.(queue := s.queue[1..]);
    match s.queue[0]
    case StartRuntime => RunStart(p, host)
    case StopRuntime => RunStop(p, host)
    case RetryMissing => p.(bridges := Retry(p.bridges, p.configured, p.isConnected, host))
    case Publish(connected) => p.(bridges := SetFlags(p.bridges, connected))
  }

  // ---- Steps of the manager thread ----

  /** The part of a cycle that consumes a finished stop. */
  function ConsumeStop(s: State): (t: State) {
    s.(session := s.session.(stopInFlight := false, started := false, wasConnected := false),
       watch := s.watch.(failures := 0, nextProbe := None, nextRetry := None)).SetStatus(false)
  }

  function RetryPart(s: State, now: real): (t: State) {
    var next := s.(watch := s.watch.(nextRetry := Some(now + BASE_CYCLE)));
    if !(s.session.started && s.session.wasConnected && s.isConnected) then s
    else if s.watch.nextRetry.None? then next
    else if now >= s.watch.nextRetry.value then next.Post(RetryMissing)
    else s
  }

  function StopPart(s: State): (t: State) {
    if s.session.wasConnected && !s.isConnected then
      s.(session := s.session.(stopInFlight := true, stop := Pending)).Post(StopRuntime)
    else s
  }

  /** Waits for a pending start, consumes a finished one, or goes on to the firmware update. */
  function StartPart(s: State): (t: State) {
    if s.session.wasConnected then s
    else if !s.session.startInFlight then s.(place := Updating)
    else if s.session.start.Pending? then s
    else if !s.session.start.ok then s.(session := s.session.(startInFlight := false))
    else
      s.(session := s.session.(startInFlight := false, started := true, wasConnected := true),
         watch := s.watch.(probes := [])).SetStatus(true)
  }

  function RestOfCycle(s: State, now: real): (t: State) { StartPart(StopPart(RetryPart(s, now))) }

  function BeginCycle(s: State, now: real): (t: State) {
    var n := s.(clock := now);
    if n.session.stopInFlight && n.session.stop.Pending? then n
    else ProbePart(if n.session.stopInFlight then ConsumeStop(n) else n, now)
  }

  /** Starts a probe that is due; without a deadline it only sets one. */
  function ProbePart(s: State, now: real): (t: State) {
    var next := s.(watch := s.watch.(nextProbe := Some(now + BASE_CYCLE)));
    if !s.NeedsProbe() then RestOfCycle(s, now)
    else if s.watch.nextProbe.None? then RestOfCycle(next, now)
    else if now >= s.watch.nextProbe.value then next.(place := Probing(now))
    else RestOfCycle(s, now)
  }

  /** The probe's answer; a shutdown in between makes it meaningless. */
  function EndProbe(s: State, alive: bool): (t: State)
    requires s.place.Probing?
  {
    var now := s.place.now;
    var i := s.(place := Idle);
    if !s.run then i else RestOfCycle(CountProbe(i, now, alive), now)
  }

  /** Counts consecutive failures; at the limit the device is lost and the count starts over. */
  function CountProbe(s: State, now: real, alive: bool): (t: State) {
    var w := s.watch.(probes := s.watch.probes + [Probe(now, alive)]);
    if alive then s.(watch := w.(failures := 0))
    else if w.failures + 1 >= FAILURE_LIMIT then s.(watch := w.(failures := 0, nextProbe := None)).SetStatus(false)
    else s.(watch := w.(failures := w.failures + 1))
  }

  function EndUpdate(s: State, ok: bool): (t: State) {
    var i := s.(place := Idle);
    if ok then i.(session := i.session.(startInFlight := true, start := Pending)).Post(StartRuntime) else i
  }

  // ---- Runs ----

  datatype Event =
    | BeginCycleAt(now: real)
    | ProbeAnswered(alive: bool)
    | FirmwareUpdated(ok: bool)
    | ActionRun(host: Host)
    | HeartbeatReported(connected: bool)
    | ShutdownRequested

  predicate Enabled(s: State, e: Event) {
    match e
    case BeginCycleAt(now) => s.run && s.place.Idle? && now >= s.clock
    case ProbeAnswered(_) => s.place.Probing?
    case FirmwareUpdated(_) => s.place.Updating?
    case ActionRun(_) => s.queue != []
    case HeartbeatReported(_) => Heartbeat in s.bridges.existing
    case ShutdownRequested => true
  }

  function Step(s: State, e: Event): (t: State)
    requires Enabled(s, e)
  {
    match e
    case BeginCycleAt(now) => BeginCycle(s, now)
    case ProbeAnswered(alive) => EndProbe(s, alive)
    case FirmwareUpdated(ok) => EndUpdate(s, ok)
    case ActionRun(host) => RunAction(s, host)
    case HeartbeatReported(connected) => s.(isConnected := connected, bridges := SetFlags(s.bridges, connected))
    case ShutdownRequested => s.(run := false)
  }

  /** The state `manage` leaves behind: bridges created eagerly, nothing connected or registered. */
  predicate Initial(s: State) {
    && s.run && s.place.Idle? && !s.isConnected && s.queue == []
    && !s.session.started && !s.session.wasConnected && !s.session.startInFlight && !s.session.stopInFlight
    && s.watch == Watch(0, None, None, [])
    && s.bridges == Bridges(s.bridges.existing, {}, {}, s.bridges.disabled, false, false, false)
    && s.bridges.existing <= s.configured && s.bridges.disabled !! s.bridges.existing
  }

  ghost predicate IsRun(s: State, events: seq<Event>)
    decreases |events|
  {
    events == [] || (Enabled(s, events[0]) && IsRun(Step(s, events[0]), events[1..]))
  }

  ghost function Final(s: State, events: seq<Event>): (t: State)
    requires IsRun(s, events)
    decreases |events|
  {
    if events == [] then s else Final(Step(s, events[0]), events[1..])
  }

  // ---- What every step keeps ----

  predicate OnlyPublish(q: seq<Action>) { forall i :: 0 <= i < |q| ==> q[i].Publish? }

  predicate OnlyLate(q: seq<Action>) { forall i :: 0 <= i < |q| ==> q[i].Publish? || q[i].RetryMissing? }

  predicate EndsWith(q: seq<Action>, a: Action) { q != [] && q[|q| - 1] == a }

  function Front(q: seq<Action>): (f: seq<Action>)
    requires q != []
  {
    q[..|q| - 1]
  }

  predicate ManagerInv(s: State) {
    && s.session.started == s.session.wasConnected
    && (s.session.startInFlight ==> !s.session.wasConnected)
    && (s.session.stopInFlight ==> s.session.wasConnected)
    && (s.place.Probing? ==> s.NeedsProbe() && !s.session.stopInFlight && s.place.now <= s.clock)
    && (s.place.Updating? ==> !s.session.wasConnected && !s.session.startInFlight)
  }

  predicate BridgeInv(b: Bridges, configured: set<Kind>) {
    && b.existing <= configured && b.disabled !! b.existing
    && b.registered == (if b.up then b.existing else {})
    && (b.up && Heartbeat in configured ==> Heartbeat in b.existing)
    && !b.registeredTwice && !b.retriedWhileDown
  }

  /** The queue in every phase of the manager, and whether the runtime is up in it. */
  predicate QueueInv(s: State) {
    if s.session.wasConnected then
      if !s.session.stopInFlight then s.bridges.up && OnlyLate(s.queue)
      else if s.session.stop.Pending? then s.bridges.up && EndsWith(s.queue, StopRuntime) && OnlyLate(Front(s.queue))
      else !s.bridges.up && s.queue == []
    else
      if !s.session.startInFlight then !s.bridges.up && OnlyPublish(s.queue)
      else if s.session.start.Pending? then
        !s.bridges.up && EndsWith(s.queue, StartRuntime) && OnlyPublish(Front(s.queue))
      else s.bridges.up == s.session.start.ok && s.queue == []
  }

  /** The value of the last status publication in the queue. */
  function LastPublished(q: seq<Action>): (r: Option<bool>) {
    if q == [] then None
    else if LastPublished(q[1..]).Some? then LastPublished(q[1..])
    else if q[0].Publish? then Some(q[0].connected) else None
  }

  predicate FlagsAgree(b: Bridges, connected: bool) { b.flagged == if connected then b.existing - {Heartbeat} else {} }

  /** Without a heartbeat: who is connected, and what the bridges know about it. */
  predicate StatusInv(s: State) {
    !s.HasHeartbeat() ==>
      && (s.isConnected <==> s.session.wasConnected && !s.session.stopInFlight)
      && (match LastPublished(s.queue)
          case None => FlagsAgree(s.bridges, s.isConnected)
          case Some(c) => c == s.isConnected)
  }

  /** The number of failed probes at the end of the log. */
  function Trailing(probes: seq<Probe>): (n: nat) {
    if probes == [] || probes[|probes| - 1].alive then 0 else 1 + Trailing(probes[..|probes| - 1])
  }

  predicate Spaced(probes: seq<Probe>) {
    forall i :: 0 < i < |probes| ==> probes[i].time >= probes[i - 1].time + BASE_CYCLE
  }

  function LastTime(probes: seq<Probe>): (t: real)
    requires probes != []
  {
    probes[|probes| - 1].time
  }

  /** Without a heartbeat: the failure counter counts the failed probes at the end of the log. */
  predicate ProbeInv(s: State) {
    var live := s.session.wasConnected && !s.session.stopInFlight;
    var w := s.watch;
    !s.HasHeartbeat() ==>
      && Spaced(w.probes)
      && (s.session.wasConnected && s.session.stopInFlight ==> Trailing(w.probes) == FAILURE_LIMIT)
      && (live ==> w.failures == Trailing(w.probes) < FAILURE_LIMIT)
      && (live && w.probes != [] ==>
            if s.place.Probing? then s.place.now >= LastTime(w.probes) + BASE_CYCLE
            else w.nextProbe.Some? && w.nextProbe.value >= LastTime(w.probes) + BASE_CYCLE)
      && (s.place.Probing? ==> w.nextProbe == Some(s.place.now + BASE_CYCLE))
      && (!s.session.wasConnected ==> w.failures == 0 && w.nextProbe.None?)
  }

  predicate Inv(s: State) {
    ManagerInv(s) && BridgeInv(s.bridges, s.configured) && QueueInv(s) && StatusInv(s) && ProbeInv(s)
  }

  lemma {:induction false} LastPublishedSnoc(q: seq<Action>, a: Action)
    ensures LastPublished(q + [a]) == if a.Publish? then Some(a.connected) else LastPublished(q)
  {
    if q == [] {
      assert (q + [a])[1..] == [];
    } else {
      LastPublishedSnoc(q[1..], a);
      assert (q + [a])[1..] == q[1..] + [a];
    }
  }

  lemma TrailingSnoc(probes: seq<Probe>, p: Probe)
    ensures Trailing(probes + [p]) == if p.alive then 0 else 1 + Trailing(probes)
  {}

  lemma SpacedSnoc(probes: seq<Probe>, p: Probe)
    ensures LastTime(probes + [p]) == p.time
    ensures Spaced(probes) && (probes != [] ==> p.time >= LastTime(probes) + BASE_CYCLE) ==> Spaced(probes + [p])
  {}

  // ---- Every step keeps it ----

  lemma RetryPartKeeps(s: State, now: real)
    requires Inv(s) && s.place.Idle? && !s.session.stopInFlight
    ensures var t := RetryPart(s, now); Inv(t) && t.place.Idle? && !t.session.stopInFlight
  {
    LastPublishedSnoc(s.queue, RetryMissing);
  }

  lemma StopPartKeeps(s: State)
    requires Inv(s) && s.place.Idle? && !s.session.stopInFlight
    ensures Inv(StopPart(s)) && StopPart(s).place.Idle?
  {
    LastPublishedSnoc(s.queue, StopRuntime);
    assert Front(s.queue + [StopRuntime]) == s.queue;
  }

  lemma StartPartKeeps(s: State)
    requires Inv(s) && s.place.Idle?
    ensures Inv(StartPart(s))
  {
    LastPublishedSnoc(s.queue, Publish(true));
  }

  lemma RestOfCycleKeeps(s: State, now: real)
    requires Inv(s) && s.place.Idle? && !s.session.stopInFlight
    ensures Inv(RestOfCycle(s, now))
  {
    hide Inv, RetryPart, StopPart, StartPart;
    RetryPartKeeps(s, now);
    StopPartKeeps(RetryPart(s, now));
    StartPartKeeps(StopPart(RetryPart(s, now)));
  }

  lemma ConsumeStopKeeps(s: State)
    requires Inv(s) && s.place.Idle? && s.session.stopInFlight && s.session.stop.Ready?
    ensures var t := ConsumeStop(s); Inv(t) && t.place.Idle? && !t.session.stopInFlight
  {
    LastPublishedSnoc(s.queue, Publish(false));
  }

  lemma ProbePartKeeps(s: State, now: real)
    requires Inv(s) && s.place.Idle? && !s.session.stopInFlight && now <= s.clock
    ensures Inv(ProbePart(s, now))
  {
    hide RestOfCycle;
    var next := s.(watch := s.watch.(nextProbe := Some(now + BASE_CYCLE)));
    if !s.NeedsProbe() || (s.watch.nextProbe.Some? && now < s.watch.nextProbe.value) {
      RestOfCycleKeeps(s, now);
    } else if s.watch.nextProbe.None? {
      RestOfCycleKeeps(next, now);
    }
  }

  lemma BeginCycleKeeps(s: State, now: real)
    requires Inv(s) && s.run && s.place.Idle? && now >= s.clock
    ensures Inv(BeginCycle(s, now))
  {
    hide ProbePart, ConsumeStop;
    var n := s.(clock := now);
    assert Inv(n);
    if n.session.stopInFlight && n.session.stop.Ready? {
      ConsumeStopKeeps(n);
      ConsumeStopKeepsClock(n);
      ProbePartKeeps(ConsumeStop(n), now);
    } else if !n.session.stopInFlight {
      ProbePartKeeps(n, now);
    }
  }

  lemma ConsumeStopKeepsClock(s: State)
    ensures ConsumeStop(s).clock == s.clock
  {}

  /** The second failed probe in a row tears the runtime down in the same step. */
  lemma TeardownKeeps(s: State, now: real)
    requires Inv(s) && s.place.Probing? && s.place.now == now && s.watch.failures + 1 >= FAILURE_LIMIT
    ensures Inv(RestOfCycle(CountProbe(s.(place := Idle), now, false), now))
  {
    var q := s.queue + [Publish(false)];
    LastPublishedSnoc(s.queue, Publish(false));
    LastPublishedSnoc(q, StopRuntime);
    TrailingSnoc(s.watch.probes, Probe(now, false));
    assert Front(q + [StopRuntime]) == q;
  }

  lemma CountProbeKeeps(s: State, now: real, alive: bool)
    requires Inv(s) && s.place.Probing? && s.place.now == now && (alive || s.watch.failures + 1 < FAILURE_LIMIT)
    ensures var t := CountProbe(s.(place := Idle), now, alive); Inv(t) && t.place.Idle? && !t.session.stopInFlight
  {
    hide LastPublished, OnlyLate, OnlyPublish, EndsWith, BridgeInv, FlagsAgree, Spaced, Trailing, LastTime;
    TrailingSnoc(s.watch.probes, Probe(now, alive));
    SpacedSnoc(s.watch.probes, Probe(now, alive));
  }

  lemma EndProbeKeeps(s: State, alive: bool)
    requires Inv(s) && s.place.Probing?
    ensures Inv(EndProbe(s, alive))
  {
    hide RestOfCycle, CountProbe;
    var now := s.place.now;
    if s.run {
      if alive || s.watch.failures + 1 < FAILURE_LIMIT {
        CountProbeKeeps(s, now, alive);
        RestOfCycleKeeps(CountProbe(s.(place := Idle), now, alive), now);
      } else {
        TeardownKeeps(s, now);
      }
    }
  }

  lemma EndUpdateKeeps(s: State, ok: bool)
    requires Inv(s) && s.place.Updating?
    ensures Inv(EndUpdate(s, ok))
  {
    LastPublishedSnoc(s.queue, StartRuntime);
    assert Front(s.queue + [StartRuntime]) == s.queue;
  }

  /** Taking the first action off the queue. */
  lemma PopKeepsShape(s: State)
    requires QueueInv(s) && s.queue != []
    ensures var q := s.queue[1..];
            match s.queue[0]
            case StartRuntime =>
              !s.session.wasConnected && s.session.startInFlight && s.session.start.Pending? && !s.bridges.up && q == []
            case StopRuntime =>
              s.session.wasConnected && s.session.stopInFlight && s.session.stop.Pending? && s.bridges.up && q == []
            case RetryMissing => s.bridges.up && QueueInv(s.(queue := q))
            case Publish(_) => QueueInv(s.(queue := q))
  {
    var q := s.queue[1..];
    if |s.queue| > 1 {
      assert q[|q| - 1] == s.queue[|s.queue| - 1] && Front(q) == Front(s.queue)[1..];
      assert Front(s.queue)[0] == s.queue[0];
    }
  }

  /** Activation registers all existing bridges or none. */
  lemma ActivateBridges(b: Bridges, host: Host)
    requires b.registered == {}
    ensures Activate(b, host) == if b.existing <= host.connects && b.existing <= host.registers
                                 then b.(registered := b.existing, up := true) else b.(registered := {}, up := false)
  {
    assert b.existing * b.registered == {} && b.registered - b.existing == {};
    assert (b.registered + b.existing * host.registers) - b.existing == {};
    assert b.existing <= host.registers ==> b.registered + b.existing * host.registers == b.existing;
  }

  lemma RunStartKeeps(s: State, host: Host)
    requires Inv(s) && s.queue != [] && s.queue[0] == StartRuntime
    ensures Inv(RunAction(s, host))
  {
    hide Activate, Trailing, Spaced, EndsWith, OnlyPublish, OnlyLate;
    PopKeepsShape(s);
    ActivateBridges(Create(s.bridges, s.configured, host), host);
  }

  /** Late bridges end up existing and registered, or neither; the others stay as they were. */
  lemma ActivateLateBridges(b: Bridges, late: set<Kind>, host: Host)
    requires late <= b.existing && b.registered == b.existing - late
    ensures var c := ActivateLate(b, late, host);
            c == b.(existing := c.existing, registered := c.existing) && b.existing - late <= c.existing <= b.existing
  {
    var tried := late * host.connects;
    assert tried * b.registered == {} && b.registered - tried == b.registered;
    assert b.registered + (tried * host.registers) == b.existing - (late - tried * host.registers);
    assert tried * host.registers - b.registered == tried * host.registers;
  }

  /** A retry adds bridges only, registers what it adds and refreshes the flags if it does anything. */
  lemma RetryBridges(b: Bridges, configured: set<Kind>, connected: bool, host: Host)
    requires BridgeInv(b, configured) && b.up
    ensures var c := Retry(b, configured, connected, host);
            && BridgeInv(c, configured) && c.up && b.existing <= c.existing
            && ((c.flagged == b.flagged && c.existing == b.existing) || FlagsAgree(c, connected))
  {
    var c := Create(b, configured, host);
    var late := c.existing - b.existing;
    assert c.existing - late == b.existing;
    ActivateLateBridges(c, late, host);
    hide ActivateLate;
  }

  lemma RunRetryKeeps(s: State, host: Host)
    requires Inv(s) && s.queue != [] && s.queue[0] == RetryMissing
    ensures Inv(RunAction(s, host))
  {
    PopKeepsShape(s);
    RetryBridges(s.bridges, s.configured, s.isConnected, host);
    hide Retry;
  }

  lemma RunActionKeeps(s: State, host: Host)
    requires Inv(s) && s.queue != []
    ensures Inv(RunAction(s, host))
  {
    match s.queue[0]
    case StartRuntime => RunStartKeeps(s, host);
    case RetryMissing => RunRetryKeeps(s, host);
    case StopRuntime =>
      PopKeepsShape(s);
      assert s.bridges.registered - s.bridges.existing == {};
    case Publish(_) =>
      PopKeepsShape(s);
  }

  lemma StepKeepsInv(s: State, e: Event)
    requires Inv(s) && Enabled(s, e)
    ensures Inv(Step(s, e))
  {
    match e
    case BeginCycleAt(now) => BeginCycleKeeps(s, now);
    case ProbeAnswered(alive) => EndProbeKeeps(s, alive);
    case FirmwareUpdated(ok) => EndUpdateKeeps(s, ok);
    case ActionRun(host) => RunActionKeeps(s, host);
    case HeartbeatReported(connected) =>
    case ShutdownRequested =>
  }

  lemma {:induction false} EveryRunKeepsInv(s: State, events: seq<Event>)
    requires Inv(s) && IsRun(s, events)
    ensures Inv(Final(s, events))
    decreases |events|
  {
    if events != [] {
      StepKeepsInv(s, events[0]);
      EveryRunKeepsInv(Step(s, events[0]), events[1..]);
    }
  }

  // ---- What follows for every run from the state that manage leaves behind ----

  lemma Reached(s: State, events: seq<Event>)
    requires Initial(s) && IsRun(s, events)
    ensures Inv(Final(s, events))
  {
    EveryRunKeepsInv(s, events);
  }

  /**
   No bridge is ever registered while it is registered, a retry never runs while the runtime is
   down, and the existing bridges are all registered or all unregistered. A disabled bridge never
   comes into existence.
   */
  lemma RegistrationsNeverClash(s: State, events: seq<Event>)
    requires Initial(s) && IsRun(s, events)
    ensures var t := Final(s, events);
            && !t.bridges.registeredTwice && !t.bridges.retriedWhileDown
            && t.bridges.registered == (if t.bridges.up then t.bridges.existing else {})
            && (t.bridges.up && t.HasHeartbeat() ==> Heartbeat in t.bridges.existing)
            && t.bridges.existing <= t.configured && t.bridges.disabled !! t.bridges.existing
  {
    Reached(s, events);
  }

  /** The manager's flags agree, and at most one action per future is outstanding. */
  lemma FlagsAndFutures(s: State, events: seq<Event>)
    requires Initial(s) && IsRun(s, events)
    ensures var t := Final(s, events);
            && t.session.started == t.session.wasConnected
            && (t.session.startInFlight ==> !t.session.wasConnected)
            && (t.session.stopInFlight ==> t.session.wasConnected)
            && (t.session.started && !t.session.stopInFlight ==> t.bridges.up)
            && multiset(t.queue)[StartRuntime] == (if t.session.startInFlight && t.session.start.Pending? then 1 else 0)
            && multiset(t.queue)[StopRuntime] == (if t.session.stopInFlight && t.session.stop.Pending? then 1 else 0)
  {
    Reached(s, events);
    var q := Final(s, events).queue;
    if q != [] { assert q == Front(q) + [q[|q| - 1]]; }
  }

  /** Without a heartbeat, the bridges know the connection state once no publication is pending. */
  lemma BridgesKnowStatus(s: State, events: seq<Event>)
    requires Initial(s) && IsRun(s, events) && !Final(s, events).HasHeartbeat()
    ensures var t := Final(s, events);
            && (t.session.wasConnected <==> t.isConnected || t.session.stopInFlight)
            && ((forall i :: 0 <= i < |t.queue| ==> !t.queue[i].Publish?) ==>
                  t.bridges.flagged == if t.isConnected then t.bridges.existing else {})
  {
    Reached(s, events);
    var t := Final(s, events);
    if forall i :: 0 <= i < |t.queue| ==> !t.queue[i].Publish? {
      NothingPublished(t.queue);
      assert t.bridges.existing - {Heartbeat} == t.bridges.existing;
    }
  }

  lemma {:induction false} NothingPublished(q: seq<Action>)
    requires forall i :: 0 <= i < |q| ==> !q[i].Publish?
    ensures LastPublished(q).None?
  {
    if q != [] { NothingPublished(q[1..]); }
  }

  /**
   Without a heartbeat, a runtime is being torn down only after exactly two failed probes in a
   row since the last answer or start, at least one base cycle apart.
   */
  lemma TeardownNeedsTwoFailures(s: State, events: seq<Event>)
    requires Initial(s) && IsRun(s, events) && !Final(s, events).HasHeartbeat() && Final(s, events).session.stopInFlight
    ensures var p := Final(s, events).watch.probes;
            var n := |p|;
            && n >= 2 && !p[n - 1].alive && !p[n - 2].alive && (n >= 3 ==> p[n - 3].alive)
            && p[n - 1].time >= p[n - 2].time + BASE_CYCLE
  {
    Reached(s, events);
    var p := Final(s, events).watch.probes;
    var n := |p|;
    assert Trailing(p) == 2;
    assert Trailing(p[..n - 1]) == 1;
    assert p[..n - 1][..n - 2] == p[..n - 2] && Trailing(p[..n - 2]) == 0;
  }

  /** A second failed probe in a row does start the teardown, and one failure alone does not. */
  lemma TwoFailuresTearDown(s: State)
    requires Inv(s) && s.place.Probing? && s.run
    ensures EndProbe(s, false).session.stopInFlight <==> s.watch.failures == 1
    ensures !EndProbe(s, true).session.stopInFlight
  {}

  /** A start brings the runtime up exactly when its bridges exist, connect and register. */
  lemma StartSucceedsExactly(s: State, host: Host)
    requires Inv(s) && s.queue != [] && s.queue[0] == StartRuntime
    ensures var existing := s.bridges.existing + (s.configured - s.bridges.disabled) * host.builds;
            var t := RunAction(s, host);
            && t.bridges.existing == existing && t.session.start == Ready(t.bridges.up)
            && (t.bridges.up <==> (s.configured == {} || existing != {}) && (s.HasHeartbeat() ==> Heartbeat in existing)
                                  && existing <= host.connects * host.registers)
  {
    hide Activate;
    PopKeepsShape(s);
    var c := Create(s.bridges, s.configured, host);
    assert c.existing == s.bridges.existing + (s.configured - s.bridges.disabled) * host.builds;
    ActivateBridges(c, host);
  }

  /** Once the host lets every bridge in, the next retry completes the runtime. */
  lemma RetryCompletesRuntime(b: Bridges, configured: set<Kind>, connected: bool, host: Host)
    requires BridgeInv(b, configured) && b.up && configured <= host.builds * host.connects * host.registers
    ensures var c := Retry(b, configured, connected, host);
            c.existing == configured - b.disabled && c.registered == c.existing
  {
    RetryBridges(b, configured, connected, host);
    var c := Create(b, configured, host);
    assert c.existing == configured - b.disabled;
  }
}

/**
 The serial bridge's reconnect and backpressure logic as a transition system: a pty on the host
 side, a TCP client toward the ChargeBridge, and a timer that delays the reconnect.
 */
module SerialProtocol {

  const PAUSE_WATERMARK := 64

  datatype State = State(
    client: bool, ready: bool, ptyReady: bool, ptyPaused: bool,
    requested: bool, connected: bool, timer: bool,
    handler: bool, available: bool,
    // A connect of the TCP client is under way and will report its outcome.
    connecting: bool,
    // History: the last client could not be registered.
    refused: bool)
  {
    /** `handle_ready`. */
    function Published(): (s: State) { this.(available := ready && ptyReady && connected) }

    /** `resume_pty`. */
    function Resumed(): (s: State) { this.(ptyPaused := false) }
  }

  const CREATED := State(false, false, false, false, false, false, false, false, false, false, false)

  /** `drop_tcp_client`. */
  function Drop(s: State): (t: State) {
    s.(timer := false, ready := false, client := false, connecting := false).Resumed()
  }

  /** `ensure_tcp_client`; `registers` is the answer of the event loop. */
  function Ensure(s: State, registers: bool): (t: State) {
    if s.client || !s.requested || !s.connected then s
    else
      var c := s.(client := true, connecting := true, refused := false);
      if c.handler && !registers then Drop(c).(refused := true) else c
  }

  /** `set_cb_connection_status` and the callback of its observable. */
  function SetConnected(s: State, connected: bool, registers: bool): (t: State) {
    if s.connected == connected then s
    else
      var c := s.(connected := connected);
      (if !connected then c
       else if !c.client then Ensure(c, registers)
       else if !c.ready then c.(timer := false, connecting := true)
       else c).Published()
  }

  /** The client's error handler: identifier 0 reports the connection, any other one an error. */
  function TcpReport(s: State, id: int): (t: State)
    requires s.client
  {
    s.(ready := id == 0, connecting := false, timer := s.timer || (id != 0 && s.connected)).Published()
  }

  /** The pty's data handler; `depth` is the length of the client's transmit queue. */
  function PtyData(s: State, accepted: bool, depth: nat, pauses: bool): (t: State) {
    if s.client && !s.ptyPaused && (!accepted || depth >= PAUSE_WATERMARK) then s.(ptyPaused := pauses) else s
  }

  /** `handle_reconnect_timer`. */
  function TimerExpired(s: State): (t: State) {
    var d := s.(timer := false);
    if s.client && !s.ready && s.connected then d.(connecting := true) else d
  }

  /** `disconnect_cb_endpoint`. */
  function Disconnect(s: State): (t: State) { Drop(s.(requested := false)).Published() }

  /** `connect_cb_endpoint`. */
  function Connect(s: State, registers: bool): (t: State) {
    Ensure(Drop(s).(requested := true), registers).Published()
  }

  /** The pty's error handler. */
  function PtyState(s: State, id: int): (t: State) { s.(ptyReady := id == 0).Published() }

  datatype Event =
    | ConnectionStatus(connected: bool, registers: bool)
    | ClientReport(id: int)
    | ClientReady
    | ClientDrained
    | PtyReport(id: int)
    | PtyReceived(accepted: bool, depth: nat, pauses: bool)
    | TimerFired
    | EndpointRequested(registers: bool)
    | EndpointDropped
    | Registered
    | Unregistered

  predicate Enabled(s: State, e: Event) {
    match e
    case ClientReport(_) => s.client
    case ClientReady => s.client
    case ClientDrained => s.client
    case TimerFired => s.timer
    case _ => true
  }

  function Step(s: State, e: Event): (t: State)
    requires Enabled(s, e)
  {
    match e
    case ConnectionStatus(connected, registers) => SetConnected(s, connected, registers)
    case ClientReport(id) => TcpReport(s, id)
    case ClientReady => s.Resumed()
    case ClientDrained => s.Resumed()
    case PtyReport(id) => PtyState(s, id)
    case PtyReceived(accepted, depth, pauses) => PtyData(s, accepted, depth, pauses)
    case TimerFired => TimerExpired(s)
    case EndpointRequested(registers) => Connect(s, registers)
    case EndpointDropped => Disconnect(s)
    case Registered => s.(handler := true)
    case Unregistered => s.(handler := false)
  }

  ghost predicate IsRun(s: State, events: seq<Event>)
    decreases |events|
  {
    events == [] || (Enabled(s, events[0]) && IsRun(Step(s, events[0]), events[1..]))
  }

  ghost function Final(s: State, events: seq<Event>): (t: State)
    requires IsRun(s, events)
    decreases |events|
  {
    if events == [] then s else Final(Step(s, events[0]), events[1..])
  }

  /** A client that should be connected is connecting or has its timer running. */
  predicate NotStuck(s: State) { s.client && !s.ready && s.connected ==> s.connecting || s.timer }

  predicate Inv(s: State) {
    && NotStuck(s)
    && (s.ptyPaused ==> s.client) && (s.client ==> s.requested)
    && (s.ready ==> s.client && !s.connecting) && (s.timer ==> s.client) && (s.connecting ==> s.client)
    && (s.requested && s.connected && !s.client ==> s.refused) && (s.refused ==> !s.client)
    && s.available == (s.ready && s.ptyReady && s.connected)
  }

  /**
   In every reachable state of the bridge: it is never stuck, a paused pty has a live client, a
   client has a requested endpoint, a requested endpoint of a connected ChargeBridge lacks its
   client exactly after a refused registration, and the published state is the actual one.
   */
  lemma {:induction false} EveryRunKeepsInv(s: State, events: seq<Event>)
    requires Inv(s) && IsRun(s, events)
    ensures Inv(Final(s, events))
    decreases |events|
  {
    if events != [] {
      StepKeepsInv(s, events[0]);
      hide Inv, Step, Enabled;
      EveryRunKeepsInv(Step(s, events[0]), events[1..]);
    }
  }

  lemma StepKeepsInv(s: State, e: Event)
    requires Inv(s) && Enabled(s, e)
    ensures Inv(Step(s, e))
  {
    hide SetConnected, Connect, Disconnect, TcpReport, PtyData, PtyState, TimerExpired;
    match e
    case ConnectionStatus(connected, registers) => SetConnectedKeeps(s, connected, registers);
    case ClientReport(id) => TcpReportKeeps(s, id);
    case EndpointRequested(registers) => ConnectKeeps(s, registers);
    case EndpointDropped => DisconnectKeeps(s);
    case PtyReport(id) => PtyKeeps(s, id, true, 0, true);
    case PtyReceived(accepted, depth, pauses) => PtyKeeps(s, 0, accepted, depth, pauses);
    case TimerFired => TimerKeeps(s);
    case ClientReady =>
    case ClientDrained =>
    case Registered =>
    case Unregistered =>
  }

  lemma PtyKeeps(s: State, id: int, accepted: bool, depth: nat, pauses: bool)
    requires Inv(s)
    ensures Inv(PtyState(s, id)) && Inv(PtyData(s, accepted, depth, pauses)) && Inv(s.Resumed())
  {}

  lemma TimerKeeps(s: State)
    requires Inv(s)
    ensures Inv(TimerExpired(s))
  {}

  lemma SetConnectedKeeps(s: State, connected: bool, registers: bool)
    requires Inv(s)
    ensures Inv(SetConnected(s, connected, registers))
  {}

  lemma TcpReportKeeps(s: State, id: int)
    requires Inv(s) && s.client
    ensures Inv(TcpReport(s, id))
  {}

  lemma ConnectKeeps(s: State, registers: bool)
    requires Inv(s)
    ensures Inv(Connect(s, registers))
  {}

  lemma DisconnectKeeps(s: State)
    requires Inv(s)
    ensures Inv(Disconnect(s))
  {}

  lemma NeverStuck(events: seq<Event>)
    requires IsRun(CREATED, events)
    ensures var t := Final(CREATED, events);
            && (t.client && !t.ready && t.connected ==> t.connecting || t.timer)
            && (t.ptyPaused ==> t.client) && (t.client ==> t.requested)
            && (t.requested && t.connected ==> (!t.client <==> t.refused))
            && t.available == (t.ready && t.ptyReady && t.connected)
  {
    EveryRunKeepsInv(CREATED, events);
  }

  /** A registration can be refused, which leaves a requested and connected endpoint without a client. */
  lemma RefusalIsReachable()
    ensures var events := [Registered, EndpointRequested(true), ConnectionStatus(true, false)];
            && IsRun(CREATED, events)
            && var t := Final(CREATED, events); t.requested && t.connected && !t.client && t.refused
  {
    var e0, e1, e2 := Registered, EndpointRequested(true), ConnectionStatus(true, false);
    var events := [e0, e1, e2];
    var s1 := Step(CREATED, e0);
    var s2 := Step(s1, e1);
    var s3 := Step(s2, e2);
    assert events[1..] == [e1, e2] && [e1, e2][1..] == [e2] && [e2][1..] == [];
    assert IsRun(s3, []) && IsRun(s2, [e2]) && IsRun(s1, [e1, e2]);
    assert Final(s3, []) == s3 && Final(s2, [e2]) == s3 && Final(s1, [e1, e2]) == s3;
  }

  /** A client appears at a request or an up edge of the connection state only. */
  lemma ClientAppears(s: State, e: Event)
    requires Enabled(s, e) && !s.client && Step(s, e).client
    ensures e.EndpointRequested? || (e.ConnectionStatus? && e.connected && !s.connected)
  {}

  /**
   In every reachable state a lost client comes back: while the ChargeBridge is connected its timer is
   armed and the expiry starts a connect, otherwise the next up edge does.
   */
  lemma LostClientIsRetried(events: seq<Event>, registers: bool)
    requires IsRun(CREATED, events)
    ensures var t := Final(CREATED, events);
            t.client && !t.ready && !t.connecting ==>
              if t.connected then t.timer && Step(t, TimerFired).connecting
              else Step(t, ConnectionStatus(true, registers)).connecting
  {
    EveryRunKeepsInv(CREATED, events);
    hide IsRun, Final;
  }
}

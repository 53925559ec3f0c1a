# EVerest: verified models of the JSON wrapper and the ChargeBridge

This project models two parts of EVerest and proves what they promise.

**The ISO 15118-2 JSON wrapper** (`applications/cbv2g_json_wrapper`) converts between JSON and the
structures of the EXI coder.

- `Octets`, `Decimal`, `SerialNumber`: X509SerialNumber, decimal text against big-endian octets in
  place, with the sign convention of EXI 1.0 section 7.1.5 and the 20-octet limit of RFC 5280
  section 4.1.2.2. The proofs are generic in the widths.
- `Integer64`: 64-bit integers as text, with the 64-bit wrap-around written out.
- `Base64`: the codec of RFC 4648 section 4 and the guard for canonical text of its section 3.5.
- `PrepareJson`, `PrepareScan`: `prepare_json`, specified on tokens, implemented as a character
  scanner on a pre-sized buffer.
- `Json`, `JsonFields`, `EnumTable`, `Schedule`, `ScheduleLoops`, `ScheduleRoundTrip`, `EscapedText`:
  SAScheduleList and SalesTariff, their readers and printers, and strings with NUL characters.

**The ChargeBridge host application** (`applications/pionix_chargebridge`) connects host devices to a
ChargeBridge.

- `ManagerProtocol`, `ChargeBridge`: the manager thread, the status monitor and the event loop's action
  queue as a transition system, and the object that takes its steps. A cycle is cut where the source
  releases the monitor; actions, heartbeat reports and a shutdown may fall between any two steps.
- `CanWire`, `CanPacing`, `CanRate`, `CanBatch`, `CanTheorems`, `CanProgress`, `CanBridge`: CAN records and
  datagrams, the token bucket, the bus emulation, the batch protocol over whole runs, and the object.
- `SerialProtocol`, `SerialBridge`: reconnect and backpressure of the serial bridge.
- `DebugUart`: line reassembly of the forwarded debug UART.

Objects of the source that update their fields are classes whose invariant `Valid` every handler keeps;
each handler is proved to take exactly one step of a transition system on values, and the properties are
proved of all runs of that system. Clocks,
probe answers, host failures, `pause_rx`, the netlink manager and the contents of socket queues are
inputs of the steps. Times and token counts are real numbers; the nanosecond truncation of the wait and
the truncation of the rate are explicit. History fields (frames accepted, batches shipped, probes,
attempts) exist for the statements only.

Where the code and an expectation differ, the code is modelled:

- The serial-number printer writes -2^160, which the parser refuses (`SerialNumber.ParseAfterPrint`).
- A full batch of 64-byte frames can cost more than the token bucket ever holds; a held batch ships if
  and only if its cost is within the cap (`CanProgress.HeldLeaves`, `CanTheorems.HeldForever`,
  `CanProgress.LongBurstIsStuck`). The socket delivers classic frames of at most 8 bytes, for which the cap suffices.
- `reset_pacing` fills the bucket from the full bitrate; the clamp in the flush makes the bound hold.
- A remainder of the UART log that exceeds 2048 bytes is cut, so reassembly equals splitting the
  stream exactly when that never happens (`DebugUart.FeedIsSplitExactly`).
- A requested and connected serial endpoint has no client exactly after a refused registration, and gets
  one at the next up edge or request only (`SerialProtocol.NeverStuck`, `SerialProtocol.RefusalIsReachable`,
  `SerialProtocol.ClientAppears`).
- The flush ignores the answer of the UDP client's `tx`, so a batch that the client rejects is gone without
  a reconnect (`CanTheorems.AllHandedOverExactly`, `CanTheorems.RejectedBatchIsGone`).

`dafny verify dfyconfig.toml` checks the whole project with Dafny 4.11.

## Model

| member | source | states |
|---|---|---|
| ManagerProtocol.EveryRunKeepsInv | applications/pionix_chargebridge/src/charge_bridge.cpp:993-1220 | every interleaving of manager steps, queued actions, heartbeat reports and shutdown keeps the manager, bridge, queue, status and probe invariants |
| ManagerProtocol.StepKeepsInv | applications/pionix_chargebridge/src/charge_bridge.cpp:993-1220 | each single step keeps the invariants, whatever the host answers |
| ManagerProtocol.RegistrationsNeverClash | applications/pionix_chargebridge/src/charge_bridge.cpp:453-508 | in every reachable state no bridge was ever registered while registered, no late retry ran while the runtime was down, and the existing bridges are all registered or all unregistered; an up runtime with a configured heartbeat has its heartbeat object, and a permanently disabled bridge does not exist |
| ManagerProtocol.FlagsAndFutures | applications/pionix_chargebridge/src/charge_bridge.cpp:1145-1175 | in every reachable state started equals was-connected, a start in flight excludes was-connected, a stop in flight implies it, and the queue holds one start (stop) action exactly while its future is outstanding |
| ManagerProtocol.BridgesKnowStatus | applications/pionix_chargebridge/src/charge_bridge.cpp:409-418 | without heartbeat: was-connected holds exactly when connected or a stop is in flight, and once no status publication is queued every existing bridge, late ones included, carries the connection flag |
| ManagerProtocol.TeardownNeedsTwoFailures | applications/pionix_chargebridge/src/charge_bridge.cpp:1084-1126 | without heartbeat: a teardown is in flight only after exactly two consecutive failed probes since the last answer or start, at least one base cycle apart |
| ManagerProtocol.TwoFailuresTearDown | applications/pionix_chargebridge/src/charge_bridge.cpp:1112-1124 | a failed probe starts the teardown exactly when it is the second in a row, an answered one never |
| ManagerProtocol.StartSucceedsExactly | applications/pionix_chargebridge/src/charge_bridge.cpp:453-508 | a start action brings the runtime up and reports success exactly when a bridge exists (if any is configured), the configured heartbeat exists and all existing bridges connect and register |
| ManagerProtocol.RetryCompletesRuntime | applications/pionix_chargebridge/src/charge_bridge.cpp:741-798 | once the host lets every bridge in, one retry leaves all configured bridges that are not disabled existing and registered |
| ManagerProtocol.RetryBridges | applications/pionix_chargebridge/src/charge_bridge.cpp:141-167 | a retry activates or drops only bridges it created, keeps all others and refreshes the connection flags |
| ManagerProtocol.RunStartKeeps | applications/pionix_chargebridge/src/charge_bridge.cpp:453-508 | the start action keeps all invariants, also when construction, connecting or registering fails |
| ManagerProtocol.RunRetryKeeps | applications/pionix_chargebridge/src/charge_bridge.cpp:745-797 | the late retry keeps all invariants and never finds the runtime down |
| ManagerProtocol.EndProbeKeeps | applications/pionix_chargebridge/src/charge_bridge.cpp:1095-1125 | the end of a probe and the rest of its cycle keep all invariants |
| ManagerProtocol.TeardownKeeps | applications/pionix_chargebridge/src/charge_bridge.cpp:1114-1148 | the second failed probe disconnects, publishes and posts the stop in the same cycle |
| ManagerProtocol.BeginCycleKeeps | applications/pionix_chargebridge/src/charge_bridge.cpp:1004-1175 | a cycle that consumes a finished stop, schedules or starts a probe, retries, stops or starts keeps all invariants |
| ManagerProtocol.ActivateBridges | applications/pionix_chargebridge/src/charge_bridge.cpp:489-500 | activation registers all existing bridges, or none if one of them does not connect or register |
| ManagerProtocol.ActivateLateBridges | applications/pionix_chargebridge/src/charge_bridge.cpp:141-167 | late bridges end up existing and registered or neither, and all others stay as they were |
| ManagerProtocol.PopKeepsShape | applications/pionix_chargebridge/src/charge_bridge.cpp:444-508 | the queue shapes of every phase: a start or stop action is always the last one |
| ChargeBridge.Manager.constructor | applications/pionix_chargebridge/src/charge_bridge.cpp:953-968 | `manage` leaves a valid state: the eagerly created bridges and nothing connected, registered or queued |
| ChargeBridge.Manager.SetRuntimeConnectionStatus | applications/pionix_chargebridge/src/charge_bridge.cpp:409-418 | sets and publishes the status, unless a heartbeat is configured |
| ChargeBridge.Manager.Cycle | applications/pionix_chargebridge/src/charge_bridge.cpp:1004-1126 | one cycle up to its end or the first release of the monitor takes the protocol step and keeps the invariants |
| ChargeBridge.Manager.ProbeOrFinish | applications/pionix_chargebridge/src/charge_bridge.cpp:1084-1090 | sets the first deadline, or starts a due probe and moves the deadline by one base cycle |
| ChargeBridge.Manager.ProbeAnswer | applications/pionix_chargebridge/src/charge_bridge.cpp:1107-1125 | discards a probe cut short by shutdown, otherwise counts it and finishes the cycle; keeps the invariants |
| ChargeBridge.Manager.CountProbe | applications/pionix_chargebridge/src/charge_bridge.cpp:1112-1124 | an answer clears the count; the second failure disconnects and starts over |
| ChargeBridge.Manager.RetryBridges | applications/pionix_chargebridge/src/charge_bridge.cpp:1134-1143 | posts a retry at most once per base cycle while connected |
| ChargeBridge.Manager.StopIfDisconnected | applications/pionix_chargebridge/src/charge_bridge.cpp:1145-1148 | posts the stop of a started runtime that lost its connection |
| ChargeBridge.Manager.StartIfDown | applications/pionix_chargebridge/src/charge_bridge.cpp:1149-1176 | waits for, consumes or prepares the start of a runtime |
| ChargeBridge.Manager.FirmwareResult | applications/pionix_chargebridge/src/charge_bridge.cpp:1210-1215 | a successful update posts the start; keeps the invariants |
| ChargeBridge.Manager.RequestShutdown | applications/pionix_chargebridge/src/charge_bridge.cpp:999-1003 | a shutdown request keeps the invariants |
| ChargeBridge.Manager.CreateInternalRuntime | applications/pionix_chargebridge/src/charge_bridge.cpp:521-616 | the loop over the bridges builds exactly the missing ones that can be built and disables exactly the hopeless ones |
| ChargeBridge.Manager.StartAction | applications/pionix_chargebridge/src/charge_bridge.cpp:453-508 | the start action with its four failure paths |
| ChargeBridge.Manager.ActivateRuntime | applications/pionix_chargebridge/src/charge_bridge.cpp:486-500 | connects and registers all bridges or leaves none registered |
| ChargeBridge.Manager.RegisterInternalEvents | applications/pionix_chargebridge/src/charge_bridge.cpp:1661-1693 | going through the bridges one after another succeeds exactly when every existing bridge can be registered and none was, and registers all that can be |
| ChargeBridge.Manager.RetryAction | applications/pionix_chargebridge/src/charge_bridge.cpp:745-797 | the retry action, a no-op on a complete runtime |
| ChargeBridge.Manager.ActivateLateBridges | applications/pionix_chargebridge/src/charge_bridge.cpp:768-782 | going through the late bridges one after another keeps exactly those that connect and register, drops the others and touches no other bridge |
| ChargeBridge.Manager.SetBridgesConnectionStatus | applications/pionix_chargebridge/src/charge_bridge.cpp:372-394 | sets the flag of every existing bridge except the heartbeat service |
| ChargeBridge.Manager.StopAction | applications/pionix_chargebridge/src/charge_bridge.cpp:931-941 | unregisters everything and completes the stop future, as failed if disconnecting throws |
| ChargeBridge.Manager.RunNextAction | lib/everest/io/src/event/fd_event_handler.cpp:409-421 | the event loop runs the oldest action, which keeps the invariants |
| ChargeBridge.Manager.HeartbeatCallback | applications/pionix_chargebridge/src/charge_bridge.cpp:579-586 | a heartbeat report sets the status and the flags and keeps the invariants |
| CanWire.Record | applications/pionix_chargebridge/src/can_bridge.cpp:29-44 | every record has the full 100 bytes |
| CanWire.RecordParts | applications/pionix_chargebridge/shared/protocol/cb_can_message.h:65-90 | flags, little-endian identifier, length and data sit at bytes 30, 31, 35 and 36, and the unused data bytes are zero |
| CanWire.HostOfRecord | applications/pionix_chargebridge/src/can_bridge.cpp:19-27 | the host reads from a record exactly what the frame accessors showed: masked identifier, flags and payload |
| CanWire.Frames | applications/pionix_chargebridge/src/can_bridge.cpp:227-240 | a datagram of n bytes yields (n + 64) / 100 frames |
| CanWire.ReadDatagram | applications/pionix_chargebridge/src/can_bridge.cpp:227-240 | the record loop reads every record once, in order, with omitted trailing bytes as zero |
| CanWire.FramesOfBatch | applications/pionix_chargebridge/src/can_bridge.cpp:227-240 | reading a batch returns its frames, also when unused data bytes of the last record are omitted |
| CanWire.FramesSnoc | applications/pionix_chargebridge/src/can_bridge.cpp:314-319 | appending a record appends exactly its frame |
| CanWire.RecordBitsOfFrame | applications/pionix_chargebridge/src/can_bridge.cpp:326-339 | the wire cost computed from the record is that of the frame |
| CanWire.WireBitsRange | applications/pionix_chargebridge/src/can_bridge.cpp:326-339 | a frame costs 49 to 615 bits, a classic one at most 138, and the bounds are reached |
| CanPacing.ResetInv | applications/pionix_chargebridge/src/can_bridge.cpp:403-412 | a reset bucket satisfies the bucket invariant although it holds more than the cap |
| CanPacing.RefillKeeps | applications/pionix_chargebridge/src/can_bridge.cpp:426-430 | a refill keeps the invariant and clamps the tokens to the cap |
| CanPacing.SpendKeeps | applications/pionix_chargebridge/src/can_bridge.cpp:442-442 | shipping what the tokens cover keeps the tokens non-negative and every window of shipments within cap + rate * time |
| CanPacing.WaitCovers | applications/pionix_chargebridge/src/can_bridge.cpp:432-434 | the hold-off falls short of the missing tokens by less than one nanosecond of refill, and is at least 100 us |
| CanPacing.WaitIsTight | applications/pionix_chargebridge/src/can_bridge.cpp:432-434 | beyond the minimum the hold-off never outlasts the missing tokens |
| CanPacing.HeldShipsBySecondExpiry | applications/pionix_chargebridge/src/can_bridge.cpp:424-443 | a batch within the cap is admitted at the first or second expiry after it was held |
| CanPacing.NeverShips | applications/pionix_chargebridge/src/can_bridge.cpp:430-431 | a batch above the cap is never admitted |
| CanRate.RateFloor | applications/pionix_chargebridge/src/can_bridge.cpp:343-347 | the largest whole rate within the budget |
| CanRate.Averaged | applications/pionix_chargebridge/src/can_bridge.cpp:322-323 | 63/64 of the old average plus 1/64 of the new cost |
| CanRate.RateUsesBus | applications/pionix_chargebridge/src/can_bridge.cpp:343-347 | at the estimated cost the wanted rate uses at most 95 % of the bitrate, and one unit more would exceed it |
| CanRate.AverageRange | applications/pionix_chargebridge/src/can_bridge.cpp:322-323 | classic frames keep the average in [49, 150] |
| CanRate.UpdatedKeeps | applications/pionix_chargebridge/src/can_bridge.cpp:350-384 | attempts stay 10 ms apart, raises 1 s, and every attempt moves the rate by at least 3 % |
| CanRate.UpdatedIsNear | applications/pionix_chargebridge/src/can_bridge.cpp:355-375 | outside the hold-off a successful update leaves the installed rate within 3 % of the wanted one |
| CanBatch.CreatedInv | applications/pionix_chargebridge/src/can_bridge.cpp:143-146 | the constructed bridge satisfies the invariant |
| CanBatch.AppendKeeps | applications/pionix_chargebridge/src/can_bridge.cpp:314-324 | appending to a batch that is not full keeps whole records, running cost, ledger and bucket in step |
| CanBatch.ShipKeeps | applications/pionix_chargebridge/src/can_bridge.cpp:444-455 | a batch that leaves moves its frames to the ledger, whether the UDP client takes it or not, and resumes the socket |
| CanBatch.PaidFlushKeeps | applications/pionix_chargebridge/src/can_bridge.cpp:442-455 | the bucket pays for a batch with what it costs on the bus before it leaves |
| CanBatch.PacedFlushKeeps | applications/pionix_chargebridge/src/can_bridge.cpp:424-443 | a paced flush charges the bucket with the cost of the batch or holds the batch with an armed timer |
| CanBatch.FlushKeeps | applications/pionix_chargebridge/src/can_bridge.cpp:418-456 | a flush ships the whole batch or keeps it unchanged, and restores the invariant |
| CanBatch.DrainKeeps | applications/pionix_chargebridge/src/can_bridge.cpp:164-168 | draining the socket changes batch, cost, average and accepted frames only |
| CanBatch.CloseKeeps | applications/pionix_chargebridge/src/can_bridge.cpp:169-174 | a full batch is flushed, any other one has its timer armed |
| CanBatch.ReceiveKeeps | applications/pionix_chargebridge/src/can_bridge.cpp:148-175 | the receive handler keeps the invariant |
| CanBatch.DisconnectKeeps | applications/pionix_chargebridge/src/can_bridge.cpp:251-272 | disconnecting and connecting discard the batch, reset the bucket and keep the invariant |
| CanBatch.EveryRunKeepsInv | applications/pionix_chargebridge/src/can_bridge.cpp:148-456 | every run of receptions, timer expiries and reconnects keeps the invariant |
| CanTheorems.NoBatchIsStranded | applications/pionix_chargebridge/src/can_bridge.cpp:148-175 | in every reachable state the buffer holds at most 12 whole records, the running cost is their cost, a batch waits exactly when its timer is armed, and a paused socket has an armed timer |
| CanTheorems.FramesAreConserved | applications/pionix_chargebridge/src/can_bridge.cpp:314-319 | in every reachable state the batches that left, read back and followed by the current one, are the accepted frames in order; each has 1 to 12 records |
| CanTheorems.FlushOutcome | applications/pionix_chargebridge/src/can_bridge.cpp:444-450 | a batch that leaves is handed to the UDP client exactly when there is a client and its `tx` takes the batch; otherwise it is gone |
| CanTheorems.AllHandedOverExactly | applications/pionix_chargebridge/src/can_bridge.cpp:444-450 | over every run all batches were handed to the UDP client if and only if every batch that left found a client that took it and no reconnect found a batch waiting |
| CanTheorems.TakingClientGetsAll | applications/pionix_chargebridge/src/can_bridge.cpp:444-450 | with a client that takes every batch and no reconnect, every batch of a run is handed to it |
| CanTheorems.RejectedBatchIsGone | applications/pionix_chargebridge/src/can_bridge.cpp:444-450 | a run without a reconnect in which the client rejects the only batch, whose frame is gone |
| CanTheorems.PacedTrafficConforms | applications/pionix_chargebridge/src/can_bridge.cpp:418-456 | the token-bucket theorem: in every reachable paced state tokens are non-negative and any window of shipped batches costs at most cap + rate * (t2 - t1) |
| CanTheorems.InvConforms | applications/pionix_chargebridge/src/can_bridge.cpp:424-443 | the bucket charged exactly the cost of the datagrams since the last reset |
| CanTheorems.ReceiveAccepts | applications/pionix_chargebridge/src/can_bridge.cpp:148-168 | a frame is dropped exactly when a full batch is held by pacing; otherwise it and as many queued frames as fit are accepted |
| CanTheorems.HeldBatchShips | applications/pionix_chargebridge/src/can_bridge.cpp:418-443 | a batch within the cap that a flush holds back has shipped by the second flush after it, each after its wait |
| CanTheorems.HeldForever | applications/pionix_chargebridge/src/can_bridge.cpp:148-443 | a batch above the cap never leaves in any run of receptions and expiries, so the cap is the exact condition |
| CanTheorems.ClassicBatchFits | applications/pionix_chargebridge/src/charge_bridge.cpp:527-543 | at every supported bitrate a full batch of frames with at most 8 bytes is within the cap |
| CanTheorems.LongestBatchIsHeldForever | applications/pionix_chargebridge/src/can_bridge.cpp:326-339 | twelve 64-byte frames at 500 kbit/s and below stay until the next reconnect, whatever is received or expires |
| CanTheorems.BusIsNotOverbooked | applications/pionix_chargebridge/src/can_bridge.cpp:320-347 | over every run with classic frames the average stays in [49, 150], the wanted rate admits at most 95 % of the bitrate, and the attempts keep their hold-off |
| CanProgress.FullBatchIsHeld | applications/pionix_chargebridge/src/can_bridge.cpp:148-175 | in every reachable state a full batch is one that pacing holds back, whichever handler flushed it: its timer was set at the last refill for the missing tokens |
| CanProgress.HeldExpiry | applications/pionix_chargebridge/src/can_bridge.cpp:424-443 | a timely expiry of an affordable held batch lets it go, or leaves it held with less than one nanosecond of refill missing; the latter never twice |
| CanProgress.HeldReception | applications/pionix_chargebridge/src/can_bridge.cpp:148-155 | a reception on a held full batch lets it go first, or keeps it unchanged and no further from being paid |
| CanProgress.HeldLeaves | applications/pionix_chargebridge/src/can_bridge.cpp:148-443 | a held batch within the cap leaves in every run with two timely expiries, whatever comes in between if it is full, and without a reception, which would let it grow, if it is not; the counterpart of HeldForever |
| CanProgress.ClassicBatchesLeave | applications/pionix_chargebridge/src/can_bridge.cpp:148-443 | over every run at a supported bitrate with classic frames, every full batch has left by the second expiry of its timer, whatever comes in between, unchanged and as the next one, and so has every other held batch that does not grow meanwhile; without a reconnect it was not discarded |
| CanProgress.FullBatchLeaves | applications/pionix_chargebridge/src/can_bridge.cpp:418-443 | in every reachable state a full batch of classic frames has left after two expiries in a row |
| CanProgress.LongBurstIsStuck | applications/pionix_chargebridge/src/can_bridge.cpp:148-443 | the run exists: at 500 kbit/s one reception of a 64-byte frame with eleven queued ones fills a batch that never leaves before a reconnect |
| CanBridge.Bridge.constructor | applications/pionix_chargebridge/src/can_bridge.cpp:125-146 | bitrate, shaping, meter and a full bucket make a valid bridge |
| CanBridge.Bridge.OnFrame | applications/pionix_chargebridge/src/can_bridge.cpp:148-175 | the receive handler takes the protocol step and keeps the invariant |
| CanBridge.Bridge.OnBatchTimer | applications/pionix_chargebridge/src/can_bridge.cpp:282-286 | the expiry of the batch timer flushes and keeps the invariant |
| CanBridge.Bridge.DisconnectEndpoint | applications/pionix_chargebridge/src/can_bridge.cpp:251-265 | discards the batch, resets pacing and keeps the invariant |
| CanBridge.Bridge.ConnectEndpoint | applications/pionix_chargebridge/src/can_bridge.cpp:267-272 | a disconnect followed by a new client keeps the invariant |
| CanBridge.Bridge.RetireEndpoint | applications/pionix_chargebridge/src/can_bridge.cpp:251-265 | the disconnect of the protocol, which the two handlers share |
| CanBridge.Bridge.AppendToBatch | applications/pionix_chargebridge/src/can_bridge.cpp:314-324 | appends the record, its cost and its share of the average |
| CanBridge.Bridge.DrainSocket | applications/pionix_chargebridge/src/can_bridge.cpp:164-168 | takes queued frames in order until the batch is full |
| CanBridge.Bridge.FlushBatch | applications/pionix_chargebridge/src/can_bridge.cpp:418-456 | the flush of the protocol, field by field |
| CanBridge.Bridge.Refill | applications/pionix_chargebridge/src/can_bridge.cpp:425-430 | adds the refill since the last flush, up to the cap |
| CanBridge.Bridge.ShipBatch | applications/pionix_chargebridge/src/can_bridge.cpp:444-455 | hands over or drops the batch, updates the rate, resumes the socket |
| CanBridge.Bridge.UpdateVcanRateLimit | applications/pionix_chargebridge/src/can_bridge.cpp:350-384 | the rate update with its hold-off and hysteresis |
| SerialProtocol.NeverStuck | applications/pionix_chargebridge/src/serial_bridge.cpp:54-66 | in every reachable state a client that should be connected is connecting or has its timer armed, a paused pty has a client, a client has a requested endpoint, a connected requested endpoint lacks its client exactly after a refused registration, and the published readiness is the actual one |
| SerialProtocol.EveryRunKeepsInv | applications/pionix_chargebridge/src/serial_bridge.cpp:54-185 | every run of callbacks keeps the invariant |
| SerialProtocol.StepKeepsInv | applications/pionix_chargebridge/src/serial_bridge.cpp:54-185 | every callback keeps the invariant |
| SerialProtocol.LostClientIsRetried | applications/pionix_chargebridge/src/serial_bridge.cpp:114-149 | in every reachable state a lost client has its timer armed, whose expiry starts a connect, or else the next up edge does |
| SerialProtocol.RefusalIsReachable | applications/pionix_chargebridge/src/serial_bridge.cpp:133-143 | a run in which a refused registration leaves a connected requested endpoint without a client |
| SerialProtocol.ClientAppears | applications/pionix_chargebridge/src/serial_bridge.cpp:54-66 | a client appears at a request or an up edge only |
| SerialBridge.Bridge.constructor | applications/pionix_chargebridge/src/serial_bridge.cpp:36-48 | nothing connected, requested or armed is a valid state |
| SerialBridge.Bridge.SetCbConnectionStatus | applications/pionix_chargebridge/src/serial_bridge.cpp:54-66 | an up edge reconnects or creates the client, equal values do nothing; keeps the invariant |
| SerialBridge.Bridge.OnTcpReport | applications/pionix_chargebridge/src/serial_bridge.cpp:114-130 | identifier 0 is ready, an error while connected arms the timer; keeps the invariant |
| SerialBridge.Bridge.OnTcpWritable | applications/pionix_chargebridge/src/serial_bridge.cpp:102-112 | the ready and drained actions resume the pty and keep the invariant |
| SerialBridge.Bridge.OnPtyReport | applications/pionix_chargebridge/src/serial_bridge.cpp:68-75 | a pty report changes the published readiness and keeps the invariant |
| SerialBridge.Bridge.OnPtyData | applications/pionix_chargebridge/src/serial_bridge.cpp:80-94 | pauses the pty on a rejected write or a full queue; keeps the invariant |
| SerialBridge.Bridge.OnReconnectTimer | applications/pionix_chargebridge/src/serial_bridge.cpp:145-149 | reconnects a client that is still not ready; keeps the invariant |
| SerialBridge.Bridge.DisconnectCbEndpoint | applications/pionix_chargebridge/src/serial_bridge.cpp:173-177 | withdraws the request and drops the client; keeps the invariant |
| SerialBridge.Bridge.ConnectCbEndpoint | applications/pionix_chargebridge/src/serial_bridge.cpp:179-185 | replaces the client; keeps the invariant |
| SerialBridge.Bridge.RegisterEvents | applications/pionix_chargebridge/src/serial_bridge.cpp:195-203 | asks the event loop to watch pty, timer and, while there is one, the client; true exactly when it takes them all; keeps the invariant |
| SerialBridge.Bridge.UnregisterEvents | applications/pionix_chargebridge/src/serial_bridge.cpp:205-213 | the same sources are taken back, all of them even after a failure, and the bridge forgets the event loop |
| SerialBridge.Bridge.EnsureTcpClient | applications/pionix_chargebridge/src/serial_bridge.cpp:133-143 | creates a client only for a requested, connected endpoint, and drops it if it cannot be registered |
| SerialBridge.Bridge.DropTcpClient | applications/pionix_chargebridge/src/serial_bridge.cpp:151-164 | disarms, drops and resumes the pty |
| SerialBridge.Bridge.ResumePty | applications/pionix_chargebridge/src/serial_bridge.cpp:166-171 | unpauses the pty |
| SerialBridge.Bridge.HandleReady | applications/pionix_chargebridge/src/serial_bridge.cpp:215-217 | publishes readiness |
| DebugUart.PacketText | applications/pionix_chargebridge/src/io_bridge.cpp:401-419 | the text of a debug packet is a prefix of what follows its header: the declared length, 128 bytes or all that arrived, whichever is least |
| DebugUart.Reassembler.OnPacket | applications/pionix_chargebridge/src/io_bridge.cpp:404-441 | a packet logs its complete lines and cuts an over-long remainder; other packets change nothing |
| DebugUart.Reassembler.EmitLines | applications/pionix_chargebridge/src/io_bridge.cpp:425-433 | the loop splits the buffer at every newline |
| DebugUart.LineEntry | applications/pionix_chargebridge/src/io_bridge.cpp:427-432 | at most one carriage return is removed |
| DebugUart.SplitAnywhere | applications/pionix_chargebridge/src/io_bridge.cpp:424-433 | splitting at any point and carrying the remainder over gives the lines of the whole |
| DebugUart.FeedIsSplitExactly | applications/pionix_chargebridge/src/io_bridge.cpp:424-439 | the log equals splitting the whole stream if and only if no remainder exceeds 2048 bytes after a packet; otherwise it has more entries than the stream has lines |
| DebugUart.NoByteIsLost | applications/pionix_chargebridge/src/io_bridge.cpp:424-439 | for every chunking the logged bytes with their endings followed by the remainder are the stream; the remainder has no newline and at most 2048 bytes |
| SerialNumber.WidthsInUse | applications/cbv2g_json_wrapper/src/iso2_converter.c:2615-2616 | the widths 25 and 20 are consistent and their limit is 2^160 |
| SerialNumber.ReadDigits | applications/cbv2g_json_wrapper/src/iso2_converter.c:2646-2659 | the digit loop leaves the value of the digits in the buffer, or fails only for a non-digit or a value beyond the limit |
| SerialNumber.LeadingOctetsZero | applications/cbv2g_json_wrapper/src/iso2_converter.c:2660-2664 | the leading octets are zero exactly when the magnitude is below 2^160 |
| SerialNumber.TextToSerial | applications/cbv2g_json_wrapper/src/iso2_converter.c:2640-2683 | accepts exactly the canonical integers with |N| < 2^160 and stores N, or |N| - 1 with the sign flag |
| SerialNumber.ItemToSerial | applications/cbv2g_json_wrapper/src/iso2_converter.c:2624-2638 | strings and exactly representable numbers are read, everything else is refused |
| SerialNumber.SerialToText | applications/cbv2g_json_wrapper/src/iso2_converter.c:2686-2731 | prints the denoted integer, refuses more than 20 significant octets, and stays inside its buffers |
| SerialNumber.DigitsReversed | applications/cbv2g_json_wrapper/src/iso2_converter.c:2709-2720 | the division loop ends within three digits per octet and leaves the decimal digits reversed |
| SerialNumber.InReadingOrder | applications/cbv2g_json_wrapper/src/iso2_converter.c:2721-2728 | sign and digits in reading order |
| SerialNumber.LeadingZeros | applications/cbv2g_json_wrapper/src/iso2_converter.c:2693-2700 | the count of significant octets decides whether the magnitude is below 2^160 |
| SerialNumber.ThreeDigitsPerOctet | applications/cbv2g_json_wrapper/src/iso2_converter.c:2687-2689 | three digits per octet are enough |
| SerialNumber.ParsedDenotesText | applications/cbv2g_json_wrapper/src/iso2_converter.c:2640-2683 | the stored octets denote the number in the text and are printable |
| SerialNumber.PrintAfterParse | applications/cbv2g_json_wrapper/src/iso2_converter.c:2686-2731 | printing what was read gives the same text |
| SerialNumber.ParseAfterPrint | applications/cbv2g_json_wrapper/src/iso2_converter.c:2624-2731 | reading what was printed gives the same number, except for -2^160 |
| SerialNumber.LowestPrintable | applications/cbv2g_json_wrapper/src/iso2_converter.c:2697-2708 | -2^160 prints and is refused on input |
| Octets.ScaleByTen | applications/cbv2g_json_wrapper/src/iso2_converter.c:2650-2655 | ten times the magnitude plus a digit, carry included |
| Octets.Decrement | applications/cbv2g_json_wrapper/src/iso2_converter.c:2673-2677 | subtracts one with borrow |
| Octets.Increment | applications/cbv2g_json_wrapper/src/iso2_converter.c:2703-2707 | adds one with carry |
| Octets.DivideByTen | applications/cbv2g_json_wrapper/src/iso2_converter.c:2711-2718 | quotient in place and remainder, and whether the quotient is zero |
| Decimal.IntTextMeansNumber | applications/cbv2g_json_wrapper/src/iso2_converter.c:2634-2634 | printing an integer gives a canonical text that denotes it |
| Decimal.NumberHasOneIntText | applications/cbv2g_json_wrapper/src/iso2_converter.c:2643-2645 | a canonical text is the only one for its value |
| Integer64.TextToMagnitude | applications/cbv2g_json_wrapper/src/iso2_converter.c:191-210 | reads canonical digits up to the limit; no multiplication wraps |
| Integer64.ReadInt64 | applications/cbv2g_json_wrapper/src/iso2_converter.c:216-235 | reads a member as a 64-bit signed integer |
| Integer64.ReadUint64 | applications/cbv2g_json_wrapper/src/iso2_converter.c:237-255 | reads a member as a 64-bit unsigned integer |
| Integer64.Int64RoundTrip | applications/cbv2g_json_wrapper/src/iso2_converter.c:430-440 | an integer survives printing and reading exactly when it is a 64-bit value, -2^63 included |
| Integer64.Int64TextUnique | applications/cbv2g_json_wrapper/src/iso2_converter.c:191-235 | a text is accepted exactly when it is the printed form of a 64-bit value |
| Base64.EncodeInto | applications/cbv2g_json_wrapper/src/json_utils.c:36-59 | fills the buffer with the encoding and a terminator, or changes nothing if it is too small |
| Base64.WriteBlock | applications/cbv2g_json_wrapper/src/json_utils.c:45-54 | one round writes the four characters of up to three octets |
| Base64.DecodeInto | applications/cbv2g_json_wrapper/src/json_utils.c:61-109 | the leading octets of the words of the text, or 0 for an empty text, a length that is no multiple of four, a buffer that is too small or a block that does not start with two characters of the alphabet |
| Base64.DecodeBlocks | applications/cbv2g_json_wrapper/src/json_utils.c:79-106 | the loop over the blocks |
| Base64.ReadBlock | applications/cbv2g_json_wrapper/src/json_utils.c:80-95 | one word from four characters, those outside the alphabet counting as zero |
| Base64.CanonicalWords | applications/cbv2g_json_wrapper/src/json_utils.c:61-109 | on canonical text the decoder computes what the text stands for |
| Base64.CanonicalSize | applications/cbv2g_json_wrapper/src/json_utils.c:66-72 | on canonical text the computed size is the number of octets |
| Base64.IsValid | applications/cbv2g_json_wrapper/src/iso2_converter.c:313-336 | accepts exactly the canonical texts |
| Base64.AcceptedIsCanonical | applications/cbv2g_json_wrapper/src/iso2_converter.c:313-336 | the tests on the whole text are the block-wise definition of canonical |
| Base64.ItemToBytes | applications/cbv2g_json_wrapper/src/iso2_converter.c:338-362 | accepts exactly the canonical encodings of at most `capacity` octets |
| Base64.DecodeAfterEncode | applications/cbv2g_json_wrapper/src/json_utils.c:36-109 | decoding an encoding gives the octets back |
| Base64.EncodeAfterDecode | applications/cbv2g_json_wrapper/src/json_utils.c:36-109 | encoding a decoded canonical text gives the text back |
| Base64.GuardedDecoderInvertsEncoder | applications/cbv2g_json_wrapper/src/iso2_converter.c:338-362 | a text decodes to b within the capacity exactly when it is the encoding of b |
| PrepareJson.TextOfLex | applications/cbv2g_json_wrapper/src/iso2_converter.c:3376-3414 | the tokens cover the whole text |
| PrepareJson.DeletingAddedQuotesRestores | applications/cbv2g_json_wrapper/src/iso2_converter.c:3390-3395 | deleting the added quotes gives back the input |
| PrepareJson.RewrittenExactlyAfterKeys | applications/cbv2g_json_wrapper/src/iso2_converter.c:3381-3397 | a number is quoted exactly when it follows a listed key that is a string token, never inside a literal |
| PrepareJson.OutputTokens | applications/cbv2g_json_wrapper/src/iso2_converter.c:3366-3418 | the output has the input tokens with those numbers as strings |
| PrepareJson.RequoteKeepsRefusal | applications/cbv2g_json_wrapper/src/iso2_converter.c:3400-3405 | the rewrite neither adds nor removes a NUL escape |
| PrepareJson.PreparedIdempotent | applications/cbv2g_json_wrapper/src/iso2_converter.c:3366-3418 | the output is accepted again and is its own output |
| PrepareScan.ScanRefinesRewrite | applications/cbv2g_json_wrapper/src/iso2_converter.c:3376-3414 | the character scanner computes the token rewrite and refuses the same texts |
| PrepareScan.KeyLengthAt | applications/cbv2g_json_wrapper/src/iso2_converter.c:3350-3358 | finds a listed key in quotes |
| PrepareScan.CopyGap | applications/cbv2g_json_wrapper/src/iso2_converter.c:3386-3388 | copies blanks and colons |
| PrepareScan.CopyNumber | applications/cbv2g_json_wrapper/src/iso2_converter.c:3390-3395 | copies a number in quotes |
| PrepareScan.CopyString | applications/cbv2g_json_wrapper/src/iso2_converter.c:3399-3413 | copies a literal, or fails at a NUL escape that is not itself escaped |
| PrepareScan.CopyKeyAndValue | applications/cbv2g_json_wrapper/src/iso2_converter.c:3382-3397 | the branch for a listed key |
| PrepareScan.CopyRound | applications/cbv2g_json_wrapper/src/iso2_converter.c:3377-3413 | one round adds at most two quotes, and only for eight characters read |
| PrepareScan.RunScan | applications/cbv2g_json_wrapper/src/iso2_converter.c:3374-3417 | the main loop with every write inside the buffer |
| PrepareScan.Prepare | applications/cbv2g_json_wrapper/src/iso2_converter.c:3366-3418 | refuses exactly the texts with a real NUL escape in a string token and otherwise returns the rewrite, within a buffer of len + 2 * (len / 8 + 1) + 1 |
| PrepareScan.Room | applications/cbv2g_json_wrapper/src/iso2_converter.c:3368-3369 | there is always room for the rest of the input, two quotes and the terminator |
| Json.ItemToInteger | applications/cbv2g_json_wrapper/src/iso2_converter.c:107-122 | an integral number within the bounds |
| Json.Lookup | applications/cbv2g_json_wrapper/src/iso2_converter.c:61-73 | finds a member exactly when the key occurs |
| Json.LookupFindsFirst | applications/cbv2g_json_wrapper/src/iso2_converter.c:61-73 | the value found is that of the first member with the key |
| EnumTable.EnumToName | applications/cbv2g_json_wrapper/src/iso2_converter.c:681-688 | the first entry with the value |
| EnumTable.NameToEnum | applications/cbv2g_json_wrapper/src/iso2_converter.c:657-670 | the first entry with the name |
| EnumTable.LookupsInverse | applications/cbv2g_json_wrapper/src/iso2_converter.c:657-688 | in a table without repetitions the two searches are inverse |
| JsonFields.GetBuilt | applications/cbv2g_json_wrapper/src/iso2_converter.c:406-443 | what was added under a key is what reading finds there |
| JsonFields.All | applications/cbv2g_json_wrapper/src/iso2_converter.c:967-1023 | all entries are converted in order, or one of them cannot be |
| JsonFields.AllInverse | applications/cbv2g_json_wrapper/src/iso2_converter.c:967-1074 | a list whose entries survive printing and reading survives as a whole |
| ScheduleLoops.ReadCosts | applications/cbv2g_json_wrapper/src/iso2_converter.c:1004-1021 | the innermost loop reads every cost or fails |
| ScheduleLoops.ReadOneConsumption | applications/cbv2g_json_wrapper/src/iso2_converter.c:996-1021 | start value and 1 to 3 costs |
| ScheduleLoops.ReadConsumptions | applications/cbv2g_json_wrapper/src/iso2_converter.c:991-1022 | the loop over consumption costs |
| ScheduleLoops.ReadOneTariffEntry | applications/cbv2g_json_wrapper/src/iso2_converter.c:970-1022 | interval, optional price level, absent or 1 to 3 consumption costs |
| ScheduleLoops.ReadTariffEntries | applications/cbv2g_json_wrapper/src/iso2_converter.c:967-1023 | the loop over tariff entries |
| ScheduleLoops.JsonToSalesTariff | applications/cbv2g_json_wrapper/src/iso2_converter.c:944-1025 | reads a tariff as specified |
| ScheduleLoops.ReadPMaxEntries | applications/cbv2g_json_wrapper/src/iso2_converter.c:1103-1114 | the loop over PMax entries |
| ScheduleLoops.ReadOneTuple | applications/cbv2g_json_wrapper/src/iso2_converter.c:1093-1121 | one tuple with its optional tariff |
| ScheduleLoops.ReadSaScheduleList | applications/cbv2g_json_wrapper/src/iso2_converter.c:1078-1124 | reads 1 to 3 tuples |
| ScheduleLoops.PrintCosts | applications/cbv2g_json_wrapper/src/iso2_converter.c:1062-1072 | prints every cost, or fails at an unknown kind |
| ScheduleLoops.PrintConsumptions | applications/cbv2g_json_wrapper/src/iso2_converter.c:1053-1073 | the loop over consumption costs |
| ScheduleLoops.PrintTariffEntries | applications/cbv2g_json_wrapper/src/iso2_converter.c:1038-1074 | the loop over tariff entries, which fails without an interval |
| ScheduleLoops.SalesTariffToJson | applications/cbv2g_json_wrapper/src/iso2_converter.c:1027-1076 | prints a tariff as specified |
| ScheduleLoops.PrintPMaxEntries | applications/cbv2g_json_wrapper/src/iso2_converter.c:1142-1151 | the loop over PMax entries |
| ScheduleLoops.PrintOneTuple | applications/cbv2g_json_wrapper/src/iso2_converter.c:1137-1157 | one tuple with its optional tariff |
| ScheduleLoops.AddSaScheduleList | applications/cbv2g_json_wrapper/src/iso2_converter.c:1126-1160 | prints the whole list |
| ScheduleRoundTrip.TablesAreDistinct | applications/cbv2g_json_wrapper/src/iso2_converter.c:559-569 | unit symbols and cost kinds have no repetitions |
| ScheduleRoundTrip.ValueRoundTrip | applications/cbv2g_json_wrapper/src/iso2_converter.c:741-761 | a valid physical value survives |
| ScheduleRoundTrip.IntervalRoundTrip | applications/cbv2g_json_wrapper/src/iso2_converter.c:918-942 | a valid interval survives |
| ScheduleRoundTrip.CostRoundTrip | applications/cbv2g_json_wrapper/src/iso2_converter.c:1004-1021 | a valid cost survives |
| ScheduleRoundTrip.ConsumptionRoundTrip | applications/cbv2g_json_wrapper/src/iso2_converter.c:991-1022 | a valid consumption cost survives |
| ScheduleRoundTrip.TariffEntryRoundTrip | applications/cbv2g_json_wrapper/src/iso2_converter.c:967-1023 | a valid tariff entry survives, with or without consumption costs |
| ScheduleRoundTrip.TariffRoundTrip | applications/cbv2g_json_wrapper/src/iso2_converter.c:944-1076 | a valid tariff survives |
| ScheduleRoundTrip.PMaxEntryRoundTrip | applications/cbv2g_json_wrapper/src/iso2_converter.c:1103-1151 | a valid PMax entry survives |
| ScheduleRoundTrip.TupleRoundTrip | applications/cbv2g_json_wrapper/src/iso2_converter.c:1087-1158 | a valid tuple survives |
| ScheduleRoundTrip.ListRoundTrip | applications/cbv2g_json_wrapper/src/iso2_converter.c:1078-1160 | a valid list prints and reads back to itself |
| ScheduleRoundTrip.ReadListValid | applications/cbv2g_json_wrapper/src/iso2_converter.c:1078-1124 | everything the reader builds is valid |
| ScheduleRoundTrip.RoundTripExactlyValid | applications/cbv2g_json_wrapper/src/iso2_converter.c:1078-1160 | a list survives printing and reading if and only if it is valid |
| ScheduleRoundTrip.ReadPrintRead | applications/cbv2g_json_wrapper/src/iso2_converter.c:1078-1160 | whatever the reader builds prints successfully and reads back to itself |
| EscapedText.EscapedFits | applications/cbv2g_json_wrapper/src/iso2_converter.c:447-462 | the escaped text is at most six times as long, so it fits its buffer |
| EscapedText.EscapedIsOneBody | applications/cbv2g_json_wrapper/src/iso2_converter.c:451-459 | the escaped text has no unescaped quote |
| EscapedText.EscapedNul | applications/cbv2g_json_wrapper/src/iso2_converter.c:451-459 | it holds a NUL escape exactly when the text has a NUL |
| EscapedText.PrintedNulIsRefused | applications/cbv2g_json_wrapper/src/iso2_converter.c:446-475 | a text prints as a JSON string exactly when it has no NUL; with one its raw form is a single literal that `prepare_json` refuses |

## Left out

- SerialNumber: libcbv2g is not part of this model, so EXI_BASETYPES_MAX_OCTETS_SUPPORTED is a parameter that must be at least 25.
- Schedule: libcbv2g is not part of this model, so its character array sizes are parameters; the lengths of its lists and the numbering of its enumerations are taken from their names and the order of the tables.
- ScheduleLoops: the readers return the structure they built; structures half filled before an error are not modelled, since the callers discard them.
- CanBridge.Bridge: the keep-alive and UDP reopen timers, readiness notification and log lines are left out; they do not touch the batch. What the UDP client does with a batch that it took, its own reset included, is not followed.
- ChargeBridge.Manager: only endpoints with a fixed address; mDNS discovery, the BSP swap and the firmware upload are inputs or left out. Unregistering does not throw, a bridge constructor fails in isolation, and an exception in a start or stop action fails its future.
- Base64.DecodeInto: for an empty text the source looks at the two characters before it; whatever they are, it returns 0, and the look is not modelled.
- SerialBridge.Bridge: the TCP client is reduced to its reports; a connect that was started reports its outcome eventually.
- Floating-point rounding of tokens, waits and averages: real arithmetic instead.
- The EXI coder and cJSON: foreign libraries; JSON is a datatype whose numbers are exact.
- The other message converters of `iso2_converter.c`, and `din_converter.c` and `apphand_converter.c`: repetitive field copying.
- The hex codec, error texts and log lines: easy members.
- The PLC bridge, the heartbeat service, the status display, MQTT and the other EVerest modules.

/** The serial bridge as an object whose callbacks update its fields. */
module SerialBridge {
  import opened SerialProtocol

  /** What an event loop can watch for the bridge. */
  datatype Source = Pty | ReconnectTimer | Client

  class Bridge {
    var tcp: bool
    var tcpReady: bool
    var ptyReady: bool
    var ptyPaused: bool
    var endpointRequested: bool
    var cbIsConnected: bool
    var reconnectTimerArmed: bool
    var handlerSet: bool
    var ready: bool
    ghost var connecting: bool
    ghost var refused: bool

    ghost function Current(): (s: State)
      reads this
    {
      State(tcp, tcpReady, ptyReady, ptyPaused, endpointRequested, cbIsConnected, reconnectTimerArmed,
            handlerSet, ready, connecting, refused)
    }

    ghost predicate Valid()
      reads this
    {
      Inv(Current())
    }

    constructor ()
      ensures Valid() && Current() == CREATED
    {
      tcp, tcpReady, ptyReady, ptyPaused := false, false, false, false;
      endpointRequested, cbIsConnected, reconnectTimerArmed := false, false, false;
      handlerSet, ready := false, false;
      connecting, refused := false, false;
    }

    // ---- Callbacks ----

    method SetCbConnectionStatus(connected: bool, registers: bool)
      requires Valid()
      modifies this
      ensures Valid() && Current() == SetConnected(old(Current()), connected, registers)
    {
      hide Inv, Ensure;
      if cbIsConnected != connected {
        cbIsConnected := connected;
        if connected {
          if tcp {
            if !tcpReady {
              reconnectTimerArmed := false;
              connecting := true;
            }
          } else {
            EnsureTcpClient(registers);
          }
        }
        HandleReady();
      }
      SetConnectedKeeps(old(Current()), connected, registers);
    }

    method OnTcpReport(id: int)
      requires Valid() && tcp
      modifies this
      ensures Valid() && Current() == TcpReport(old(Current()), id)
    {
      hide Inv;
      tcpReady := id == 0;
      connecting := false;
      if !tcpReady && cbIsConnected {
        reconnectTimerArmed := true;
      }
      HandleReady();
      TcpReportKeeps(old(Current()), id);
    }

    /** The client's ready and drained actions. */
    method OnTcpWritable()
      requires Valid() && tcp
      modifies this
      ensures Valid() && Current() == old(Current()).Resumed()
    {
      hide Inv, PtyState, PtyData, State.Resumed;
      PtyKeeps(Current(), 0, true, 0, true);
      ResumePty();
    }

    method OnPtyReport(id: int)
      requires Valid()
      modifies this
      ensures Valid() && Current() == PtyState(old(Current()), id)
    {
      hide Inv, PtyData, State.Resumed, State.Published;
      PtyKeeps(Current(), id, true, 0, true);
      ptyReady := id == 0;
      HandleReady();
    }

    method OnPtyData(accepted: bool, depth: nat, pauses: bool)
      requires Valid()
      modifies this
      ensures Valid() && Current() == PtyData(old(Current()), accepted, depth, pauses)
    {
      hide Inv, PtyState, State.Resumed;
      PtyKeeps(Current(), 0, accepted, depth, pauses);
      if !tcp {
        return;
      }
      if !ptyPaused && (!accepted || depth >= PAUSE_WATERMARK) {
        ptyPaused := pauses;
      }
    }

    method OnReconnectTimer()
      requires Valid() && reconnectTimerArmed
      modifies this
      ensures Valid() && Current() == TimerExpired(old(Current()))
    {
      hide Inv;
      reconnectTimerArmed := false;
      if tcp && !tcpReady && cbIsConnected {
        connecting := true;
      }
      TimerKeeps(old(Current()));
    }

    method DisconnectCbEndpoint()
      requires Valid()
      modifies this
      ensures Valid() && Current() == Disconnect(old(Current()))
    {
      hide Inv, Drop, State.Published;
      endpointRequested := false;
      DropTcpClient();
      HandleReady();
      DisconnectKeeps(old(Current()));
    }

    method ConnectCbEndpoint(registers: bool)
      requires Valid()
      modifies this
      ensures Valid() && Current() == Connect(old(Current()), registers)
    {
      hide Inv, Drop, Ensure, State.Published;
      DropTcpClient();
      endpointRequested := true;
      EnsureTcpClient(registers);
      HandleReady();
      ConnectKeeps(old(Current()), registers);
    }

    /** What the bridge has the event loop watch: the client only while there is one. */
    function Sources(): (sources: seq<Source>)
      reads this
    {
      [Pty, ReconnectTimer] + if tcp then [Client] else []
    }

    /** Every source is handed over even after a failure; `answers` are the event loop's. */
    method RegisterEvents(answers: Source -> bool) returns (result: bool, asked: seq<Source>)
      requires Valid()
      modifies this
      ensures Valid() && Current() == old(Current()).(handler := true)
      ensures asked == Sources() && (result <==> forall x :: x in asked ==> answers(x))
    {
      handlerSet := true;
      result, asked := AskAll(answers);
    }

    method UnregisterEvents(answers: Source -> bool) returns (result: bool, asked: seq<Source>)
      requires Valid()
      modifies this
      ensures Valid() && Current() == old(Current()).(handler := false)
      ensures asked == Sources() && (result <==> forall x :: x in asked ==> answers(x))
    {
      result, asked := AskAll(answers);
      handlerSet := false;
    }

    // ---- What they share ----

    method AskAll(answers: Source -> bool) returns (result: bool, asked: seq<Source>)
      ensures asked == Sources() && (result <==> forall x :: x in asked ==> answers(x))
    {
      result, asked := answers(Pty), [Pty];
      result, asked := answers(ReconnectTimer) && result, asked + [ReconnectTimer];
      if tcp {
        result, asked := answers(Client) && result, asked + [Client];
      }
    }

    method HandleReady()
      modifies this`ready
      ensures Current() == old(Current()).Published()
    {
      ready := tcpReady && ptyReady && cbIsConnected;
    }

    method ResumePty()
      modifies this`ptyPaused
      ensures Current() == old(Current()).Resumed()
    {
      if ptyPaused {
        ptyPaused := false;
      }
    }

    method DropTcpClient()
      modifies this
      ensures Current() == Drop(old(Current()))
    {
      reconnectTimerArmed := false;
      tcpReady := false;
      tcp, connecting := false, false;
      ResumePty();
    }

    method EnsureTcpClient(registers: bool)
      modifies this
      ensures Current() == Ensure(old(Current()), registers)
    {
      hide Drop, State.Resumed, State.Published, Inv;
      if tcp || !endpointRequested || !cbIsConnected {
        return;
      }
      tcp, connecting, refused := true, true, false;
      assert Current() == old(Current()).(client := true, connecting := true, refused := false);
      if handlerSet && !registers {
        DropTcpClient();
        refused := true;
      }
    }
  }
}

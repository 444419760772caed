/** The connection as the object the server holds: its handlers update its fields one at a time,
    and each is proved to do what the value model says. */
module GodotConnectionClass {
  import opened Options
  import opened ConnectionModel
  import opened ConnectionInvariants

  class GodotConnection {
    const autoReconnect: bool
    const quickTimeoutMs: nat

    var ws: Option<nat>
    var pendingRequests: map<nat, nat>
    var reconnectAttempt: nat
    var reconnectTimeout: Option<nat>
    var pingInterval: Option<nat>
    var pongTimeout: Option<nat>
    var isClosing: bool
    var heartbeatPending: bool
    var handshakeResult: Option<HandshakeStatus>
    var pendingCloseCode: Option<CloseCode>
    var lastDisconnectReason: Reason
    var rejectionCount: nat
    var currentState: Phase

    /** The Node process this connection runs in. */
    var host: Host
    ghost var armings: seq<Arming>

    ghost function View(): Conn
      reads this
    {
      Conn(host, autoReconnect, quickTimeoutMs, ws, pendingRequests, reconnectAttempt, reconnectTimeout,
           pingInterval, pongTimeout, isClosing, heartbeatPending, handshakeResult, pendingCloseCode,
           lastDisconnectReason, rejectionCount, currentState, armings)
    }

    /** The ids in the pending map and the socket in `ws` exist. */
    ghost predicate Linked()
      reads this
    {
      (forall i :: i in pendingRequests ==> i < |host.promises|) && (ws.Some? ==> ws.value < |host.sockets|)
    }

    constructor (autoReconnect: bool, quickTimeoutMs: nat)
      ensures View() == Init(autoReconnect, quickTimeoutMs) && Inv(View())
    {
      this.autoReconnect, this.quickTimeoutMs := autoReconnect, quickTimeoutMs;
      ws, pendingRequests, reconnectAttempt, reconnectTimeout := None, map[], 0, None;
      pingInterval, pongTimeout, isClosing, heartbeatPending := None, None, false, false;
      handshakeResult, pendingCloseCode, lastDisconnectReason := None, None, NeverConnected;
      rejectionCount, currentState, armings := 0, Disconnected, [];
      host := Host(0, 0, map[], [], [], {});
    }

    // ---- Node ----

    method SetTimeout(delay: nat, task: Task) returns (t: nat)
      modifies this`host
      ensures t == old(host.nextTimer) && host == SetTimer(old(host), delay, task)
    {
      t := host.nextTimer;
      host := host.(nextTimer := t + 1, timers := host.timers[t := Timer(host.now + delay, task)]);
    }

    method ClearTimeout(t: nat)
      modifies this`host
      ensures host == ClearTimer(old(host), Some(t))
    {
      host := host.(timers := host.timers - {t});
    }

    /** Calls a promise's `resolve` or `reject`; the first call also queues what awaits it. */
    method SettlePromise(id: nat, outcome: Outcome)
      requires id < |host.promises|
      modifies this`host
      ensures host == Settle(old(host), id, outcome)
    {
      var p := host.promises[id];
      if p.calls == [] {
        host := host.(reactions := host.reactions + {id});
      }
      host := host.(promises := host.promises[id := p.(calls := p.calls + [Settlement(outcome, host.now)])]);
    }

    method NewSocket() returns (s: nat)
      modifies this`host
      ensures s == old(|host.sockets|) && host == old(host).(sockets := old(host.sockets) + [Connecting])
    {
      s := |host.sockets|;
      host := host.(sockets := host.sockets + [Connecting]);
    }

    method ShutSocket(s: nat)
      requires s < |host.sockets|
      modifies this`host
      ensures host == Shut(old(host), s)
    {
      if host.sockets[s] != Closed {
        host := host.(sockets := host.sockets[s := Closing]);
      }
    }

    // ---- the source's private methods ----

    method IsOpen() returns (open: bool)
      ensures open == IsConnected(View())
    {
      open := ws.Some? && ws.value < |host.sockets| && host.sockets[ws.value] == Open;
    }

    method ClearPongTimeout()
      modifies this
      ensures View() == ClearPong(old(View()))
    {
      if pongTimeout.Some? {
        ClearTimeout(pongTimeout.value);
        pongTimeout := None;
      }
    }

    method StopPingInterval()
      modifies this
      ensures View() == StopPing(old(View()))
    {
      if pingInterval.Some? {
        ClearTimeout(pingInterval.value);
        pingInterval := None;
      }
      ClearPongTimeout();
    }

    method StartPingInterval()
      modifies this
      ensures View() == StartPing(old(View()))
    {
      StopPingInterval();
      var t := SetTimeout(PING_INTERVAL_MS, PingTick);
      pingInterval := Some(t);
    }

    /** Builds a request's promise, arms its timeout and enters it in the pending map. */
    method IssueRequest(kind: Kind, timeoutMs: nat) returns (id: nat)
      modifies this
      ensures id == old(|host.promises|) && View() == Issue(old(View()), kind, timeoutMs)
      ensures id < |host.promises| && host.sockets == old(host.sockets) && ws == old(ws)
    {
      id := |host.promises|;
      var delay := if 1 <= timeoutMs <= MAX_TIMER_MS then timeoutMs else 1;
      host := host.(promises := host.promises + [Promise(kind, host.now, delay, [], false)]);
      var t := SetTimeout(delay, RequestTimeout(id));
      pendingRequests := pendingRequests[id := t];
    }

    method DoHandshake()
      modifies this
      ensures View() == PerformHandshake(old(View()))
    {
      hide Issue;
      var id := IssueRequest(Handshake, HANDSHAKE_TIMEOUT_MS);
      if ws == None || (ws.value < |host.sockets| && host.sockets[ws.value] == Connecting) {
        SettlePromise(id, SendThrew);
      }
    }

    /** Takes one request out of the map, disarms its timeout and settles it. */
    method SettlePending(id: nat, outcome: Outcome)
      requires id in pendingRequests && id < |host.promises|
      modifies this
      ensures View() == Answer(old(View()), id, outcome)
    {
      var t := pendingRequests[id];
      pendingRequests := pendingRequests - {id};
      ClearTimeout(t);
      SettlePromise(id, outcome);
    }

    /** Takes a handshake out of the map and disarms its timeout; its resolver then throws. */
    method LosePending(id: nat)
      requires id in pendingRequests && id < |host.promises|
      modifies this
      ensures View() == Lose(old(View()), id)
    {
      var t := pendingRequests[id];
      pendingRequests := pendingRequests - {id};
      ClearTimeout(t);
      host := host.(promises := host.promises[id := host.promises[id].(lost := true)]);
    }

    method ArmReconnect(ghost rejection: nat)
      modifies this
      ensures View() == ScheduleReconnect(old(View()), rejection)
    {
      if reconnectTimeout.Some? {
        return;
      }
      var last := |RECONNECT_DELAYS| - 1;
      var delay := RECONNECT_DELAYS[if reconnectAttempt < last then reconnectAttempt else last];
      reconnectAttempt := reconnectAttempt + 1;
      var t := SetTimeout(delay, Reconnect);
      reconnectTimeout := Some(t);
      armings := armings + [Arming(rejection, delay, host.now)];
    }

    lemma RejectOneMore(h: Host, part: map<nat, nat>, id: nat, t: nat, code: CloseCode)
      requires id !in part && id < |h.promises|
      ensures Settle(ClearTimer(Rejected(h, part, code), Some(t)), id, ConnectionClosed(code))
           == Rejected(h, part[id := t], code)
      ensures |Rejected(h, part, code).promises| == |h.promises|
    {
      var more := part[id := t];
      assert more.Values == part.Values + {t} by {
        forall v | v in part.Values + {t} ensures v in more.Values {
          if v in part.Values {
            var k :| k in part && part[k] == v;
            assert more[k] == v;
          } else {
            assert more[id] == v;
          }
        }
      }
    }

    /** Rejects the requests in flight one after the other, whatever order the map lists them in. */
    method RejectAll(code: CloseCode)
      requires Linked()
      modifies this`host, this`pendingRequests
      ensures host == Rejected(old(host), old(pendingRequests), code) && pendingRequests == map[]
      ensures host.sockets == old(host.sockets)
    {
      var rest := pendingRequests.Keys;
      ghost var h0, part: map<nat, nat> := host, map[];
      assert Rejected(h0, part, code) == h0;
      hide Rejected;
      while rest != {}
        invariant pendingRequests == old(pendingRequests)
        invariant rest <= pendingRequests.Keys && part.Keys == pendingRequests.Keys - rest
        invariant forall i :: i in part ==> part[i] == pendingRequests[i]
        invariant host == Rejected(h0, part, code) && |host.promises| == |h0.promises|
        invariant host.sockets == h0.sockets
        decreases rest
      {
        var id :| id in rest;
        var t := pendingRequests[id];
        RejectOneMore(h0, part, id, t, code);
        ClearTimeout(t);
        SettlePromise(id, ConnectionClosed(code));
        part := part[id := t];
        rest := rest - {id};
      }
      assert part == pendingRequests;
      pendingRequests := map[];
    }

    /** All requests in flight, with the code the close left behind for them. */
    method RejectPending()
      requires Linked()
      modifies this`host, this`pendingRequests, this`pendingCloseCode
      ensures host == Rejected(old(host), old(pendingRequests), CleanupCode(old(View())))
      ensures pendingRequests == map[] && pendingCloseCode == None && host.sockets == old(host.sockets)
    {
      hide Rejected;
      var code := if pendingCloseCode.Some? then pendingCloseCode.value else CloseUnknown;
      pendingCloseCode := None;
      RejectAll(code);
    }

    method ClearReconnect()
      modifies this`host, this`reconnectTimeout
      ensures host == ClearTimer(old(host), old(reconnectTimeout)) && reconnectTimeout == None
    {
      if reconnectTimeout.Some? {
        ClearTimeout(reconnectTimeout.value);
        reconnectTimeout := None;
      }
    }

    /** The part of the clean-up that follows the pings. */
    method AbandonAll()
      requires Linked()
      modifies this`host, this`pendingRequests, this`reconnectTimeout, this`handshakeResult, this`pendingCloseCode
      ensures View() == Abandon(old(View()))
      ensures |host.sockets| == old(|host.sockets|) && pendingRequests == map[]
    {
      hide Rejected;
      handshakeResult := None;
      ClearReconnect();
      RejectPending();
    }

    method CleanUp()
      requires Linked()
      modifies this
      ensures View() == Cleanup(old(View()))
      ensures ws == old(ws) && |host.sockets| == old(|host.sockets|) && pendingRequests == map[]
    {
      StopPingInterval();
      assert |host.promises| == old(|host.promises|) && pendingRequests == old(pendingRequests);
      assert ws == old(ws) && |host.sockets| == old(|host.sockets|);
      hide StopPing, Abandon;
      AbandonAll();
    }

    // ---- the event handlers ----

    method Dial()
      modifies this
      ensures View() == OnConnect(old(View()))
    {
      var open := IsOpen();
      if open {
        return;
      }
      isClosing := false;
      currentState := if reconnectAttempt > 0 then Reconnecting else ConnectingPhase;
      var s := NewSocket();
      ws := Some(s);
    }

    method Connect()
      requires Inv(View())
      modifies this
      ensures View() == Step(old(View()), Event.Connect) && Inv(View())
    {
      hide Inv, OnConnect;
      StepOk(View(), Event.Connect);
      Dial();
    }

    method Greet()
      modifies this
      ensures View() == PerformHandshake(StartPing(old(View()).(reconnectAttempt := 0)))
    {
      hide StartPing, PerformHandshake;
      reconnectAttempt := 0;
      StartPingInterval();
      DoHandshake();
    }

    method OnSocketOpen(s: nat)
      requires Inv(View()) && Enabled(View(), Opened(s))
      modifies this
      ensures View() == Step(old(View()), Opened(s)) && Inv(View())
    {
      hide Inv, StartPing, PerformHandshake;
      StepOk(View(), Opened(s));
      host := host.(sockets := host.sockets[s := Open]);
      Greet();
    }

    method OnSocketMessage(s: nat, m: Message)
      requires Inv(View()) && Enabled(View(), Delivered(s, m))
      modifies this
      ensures View() == Step(old(View()), Delivered(s, m)) && Inv(View())
    {
      hide Inv, Answer, Lose;
      StepOk(View(), Delivered(s, m));
      InvLinks(View());
      match m
      case NotJson =>
      case Invalid(claimed) =>
        if claimed.Some? && claimed.value in pendingRequests {
          SettlePending(claimed.value, MalformedReply);
        }
      case Success(id, result) =>
        if id in pendingRequests {
          if host.promises[id].kind != Handshake {
            SettlePending(id, Resolved(result));
          } else if result == None {
            LosePending(id);
          } else {
            SettlePending(id, Resolved(result));
            handshakeResult := Some(HandshakeSuccess(result.value));
          }
        }
      case Error(id, code) =>
        if id in pendingRequests {
          SettlePending(id, CommandFailed(code));
        }
    }

    method OnSocketPong(s: nat)
      requires Inv(View()) && Enabled(View(), Pong(s))
      modifies this
      ensures View() == Step(old(View()), Pong(s)) && Inv(View())
    {
      hide Inv;
      StepOk(View(), Pong(s));
      ClearPongTimeout();
    }

    method CountRejection()
      modifies this
      ensures View() == NoteRejection(old(View()))
    {
      lastDisconnectReason := RejectedAnother;
      pendingCloseCode := Some(RejectedAnotherClient);
      rejectionCount := rejectionCount + 1;
      reconnectAttempt :=
        if rejectionCount - 1 < |RECONNECT_DELAYS| - 1 then rejectionCount - 1 else |RECONNECT_DELAYS| - 1;
    }

    method BlameLoss(code: nat, wasConnected: bool)
      modifies this`lastDisconnectReason, this`pendingCloseCode
      ensures View() == NoteLoss(old(View()), code, wasConnected)
    {
      if code == CLOSE_CODE_REPLACED {
        lastDisconnectReason := Replaced;
        pendingCloseCode := Some(ReplacedByNewClient);
      } else if code == CLOSE_CODE_STALE {
        lastDisconnectReason := Lost;
        pendingCloseCode := Some(StaleClosedByServer);
      } else if wasConnected {
        lastDisconnectReason := Lost;
        pendingCloseCode := Some(ConnectionLost);
      } else if lastDisconnectReason == NeverConnected {
        lastDisconnectReason := Refused;
        pendingCloseCode := Some(ConnectionRefused);
      }
    }

    /** The `close` handler's own bookkeeping. */
    method NoteClose(code: nat)
      modifies this
      ensures View() == Classify(old(View()), code)
    {
      hide NoteRejection, NoteLoss;
      var wasConnected := currentState == Connected;
      currentState := Disconnected;
      if code == CLOSE_CODE_ALREADY_CONNECTED {
        CountRejection();
      } else {
        BlameLoss(code, wasConnected);
      }
    }

    method OnSocketClose(s: nat, code: nat)
      requires Inv(View()) && Enabled(View(), SocketClosed(s, code))
      modifies this
      ensures View() == Step(old(View()), SocketClosed(s, code)) && Inv(View())
    {
      hide Inv, Cleanup, ScheduleReconnect, Classify;
      StepOk(View(), SocketClosed(s, code));
      InvLinks(View());
      host := host.(sockets := host.sockets[s := Closed]);
      ClassifyFields(View(), code);
      NoteClose(code);
      CleanUp();
      if autoReconnect && !isClosing {
        ArmReconnect(if code == CLOSE_CODE_ALREADY_CONNECTED then rejectionCount else 0);
      }
    }

    method OnSocketError(s: nat, refused: bool)
      requires Inv(View()) && Enabled(View(), SocketError(s, refused))
      modifies this
      ensures View() == Step(old(View()), SocketError(s, refused)) && Inv(View())
    {
      hide Inv;
      StepOk(View(), SocketError(s, refused));
      lastDisconnectReason := if refused then Refused else Failed;
    }

    method CloseSocket()
      requires Linked()
      modifies this
      ensures View() == HangUp(old(View()))
    {
      if ws.Some? {
        ShutSocket(ws.value);
        ws := None;
      }
    }

    method DropEverything()
      requires Linked()
      modifies this
      ensures View() == OnDisconnect(old(View()))
    {
      hide Cleanup, HangUp;
      isClosing := true;
      lastDisconnectReason := ClosedNormally;
      pendingCloseCode := Some(ClosedByClient);
      currentState := Disconnected;
      CleanUp();
      CloseSocket();
    }

    method Disconnect()
      requires Inv(View())
      modifies this
      ensures View() == Step(old(View()), Event.Disconnect) && Inv(View())
    {
      hide Inv, OnDisconnect;
      StepOk(View(), Event.Disconnect);
      InvLinks(View());
      DropEverything();
    }

    /** Sends a command, or refuses it with no trace when there is no open socket. The request is
        pending before its parameters are serialised, which may throw. */
    method SendCommand(timeoutMs: Option<nat>, serialises: bool) returns (id: Option<nat>)
      requires Inv(View())
      modifies this
      ensures View() == Step(old(View()), Send(timeoutMs, serialises)) && Inv(View())
      ensures id == if IsConnected(old(View())) then Some(old(|host.promises|)) else None
    {
      hide Inv, Issue;
      StepOk(View(), Send(timeoutMs, serialises));
      var open := IsOpen();
      if !open {
        return None;
      }
      var i := IssueRequest(Command, if timeoutMs.Some? then timeoutMs.value else quickTimeoutMs);
      if !serialises {
        SettlePromise(i, SendThrew);
      }
      return Some(i);
    }

    /** The callback of a request's timeout; its timer is gone already. */
    method TimeOut(id: nat)
      requires id < |host.promises|
      modifies this
      ensures View() == OnRequestTimeout(old(View()), id)
    {
      pendingRequests := pendingRequests - {id};
      if host.promises[id].kind == Handshake {
        handshakeResult := Some(HandshakeTimeout);
      }
      SettlePromise(id, TimedOut);
    }

    method Terminate()
      requires Linked()
      modifies this
      ensures View() == OnPongTimeout(old(View()))
    {
      if ws.Some? {
        ShutSocket(ws.value);
      }
    }

    /** A one-shot timer's callback; the timer is gone already. */
    method RunTask(task: Task)
      requires Linked() && !task.PingTick? && (task.RequestTimeout? ==> task.id < |host.promises|)
      modifies this
      ensures View() == match task
        case RequestTimeout(id) => OnRequestTimeout(old(View()), id)
        case PongTimeout => OnPongTimeout(old(View()))
        case _ => OnConnect(old(View()).(reconnectTimeout := None))
    {
      hide OnRequestTimeout, OnPongTimeout, OnConnect;
      match task
      case RequestTimeout(id) => TimeOut(id);
      case PongTimeout => Terminate();
      case Reconnect =>
        reconnectTimeout := None;
        Dial();
    }

    /** A timer of this connection goes off. */
    method OnTimer(t: nat)
      requires Inv(View()) && Enabled(View(), Fired(t))
      modifies this
      ensures View() == Step(old(View()), Fired(t)) && Inv(View())
    {
      hide Inv, OnRequestTimeout, OnPongTimeout, OnConnect, OnPingTick;
      StepOk(View(), Fired(t));
      InvLinks(View());
      var task := host.timers[t].task;
      if task == PingTick {
        host := host.(timers := host.timers[t := Timer(host.now + PING_INTERVAL_MS, PingTick)]);
        Tick();
      } else {
        host := host.(timers := host.timers - {t});
        RunTask(task);
      }
    }

    method Tick()
      modifies this
      ensures View() == OnPingTick(old(View()))
    {
      hide Issue;
      var open := IsOpen();
      if open {
        var p := SetTimeout(PONG_TIMEOUT_MS, PongTimeout);
        pongTimeout := Some(p);
        if !heartbeatPending {
          heartbeatPending := true;
          var id := IssueRequest(Heartbeat, quickTimeoutMs);
        }
      }
    }

    /** The code queued behind a settled promise runs. */
    method OnReactionJob(id: nat)
      requires Inv(View()) && Enabled(View(), Reaction(id))
      modifies this
      ensures View() == Step(old(View()), Reaction(id)) && Inv(View())
    {
      hide Inv;
      StepOk(View(), Reaction(id));
      host := host.(reactions := host.reactions - {id});
      match host.promises[id].kind
      case Command =>
      case Handshake => currentState := Connected;
      case Heartbeat => heartbeatPending := false;
    }
  }
}

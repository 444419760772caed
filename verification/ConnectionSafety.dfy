/** What the connection guarantees over whole runs: in every interleaving of calls, replies,
    malformed replies, timeouts, closes and reconnects. */
module ConnectionSafety {
  import opened Options
  import opened Timeouts
  import opened ConnectionModel
  import opened ConnectionInvariants

  // ---- how one event moves the promises ----

  /** Request `i` is the handshake whose resolver the event makes throw. */
  predicate Loses(c: Conn, e: Event, i: nat) {
    e.Delivered? && ResolverThrows(c, e.message) && e.message.id == i
  }

  /** Between two states a promise is either left alone, or settled at the moment it leaves the
      pending map, or lost there. */
  predicate Moved(c: Conn, e: Event, d: Conn, i: nat)
    requires i < |c.host.promises| <= |d.host.promises|
  {
    var p, q := c.host.promises[i], d.host.promises[i];
    && q.(calls := []) == p.(calls := [], lost := p.lost || Loses(c, e, i)) && (Threw(q) <==> Threw(p))
    && if i in d.pending || i !in c.pending
       then q.calls == p.calls && (i in d.pending <==> i in c.pending)
       else if Loses(c, e, i) then q.calls == p.calls
       else |q.calls| == |p.calls| + 1 && q.calls[..|p.calls|] == p.calls
  }

  /** The executor of the request the event issues throws: the handshake of an `open` finds no
      socket it can be sent on, or a command's parameters do not serialise. */
  predicate SendThrows(c: Conn, e: Event) {
    || (e.Opened? && c.ws != Some(e.socket) && (c.ws == None || SocketIs(c, Connecting)))
    || (e.Send? && IsConnected(c) && !e.serialises)
  }

  /** Some code that should settle a promise throws instead. */
  predicate Throws(c: Conn, e: Event) {
    SendThrows(c, e) || (e.Delivered? && ResolverThrows(c, e.message))
  }

  /** An event moves old promises as above and adds at most one, unsettled and pending, except
      that a request whose executor throws starts out settled and pending. */
  predicate Moves(c: Conn, e: Event, d: Conn) {
    var n := |c.host.promises|;
    && n <= |d.host.promises| <= n + 1 && c.host.now <= d.host.now
    && (forall i {:trigger d.host.promises[i]} :: 0 <= i < n ==> Moved(c, e, d, i))
    && (|d.host.promises| == n + 1 ==>
          && n in d.pending && !d.host.promises[n].lost && (Threw(d.host.promises[n]) <==> SendThrows(c, e))
          && |d.host.promises[n].calls| == if SendThrows(c, e) then 1 else 0)
    && (SendThrows(c, e) ==> |d.host.promises| == n + 1)
    && (e.Delivered? && ResolverThrows(c, e.message) ==> e.message.id !in d.pending)
  }

  /** An event that issues no request through an executor that can throw, and delivers nothing. */
  predicate Plain(e: Event) {
    !e.Opened? && !e.Send? && !e.Delivered?
  }

  lemma FrameMoves(c: Conn, e: Event, d: Conn)
    requires d.host.promises == c.host.promises && d.pending == c.pending && c.host.now <= d.host.now
    requires !SendThrows(c, e) && !(e.Delivered? && ResolverThrows(c, e.message))
    ensures Moves(c, e, d)
  {
  }

  lemma PendingBound(c: Conn)
    requires TimersOk(c)
    ensures forall i :: i in c.pending ==> i < |c.host.promises|
  {
  }

  lemma SameMoves(c: Conn, d: Conn, e: Event, f: Conn)
    requires Moves(c, e, f) && Plain(e) && d.host.promises == c.host.promises && d.pending == c.pending
    requires d.host.now == c.host.now
    ensures Moves(d, e, f)
  {
    assert forall i :: 0 <= i < |c.host.promises| ==> (Moved(c, e, f, i) <==> Moved(d, e, f, i));
  }

  lemma DispatchMoves(c: Conn, e: Event, kind: Kind, timeoutMs: nat, lands: bool)
    requires forall i :: i in c.pending ==> i < |c.host.promises|
    requires !e.Delivered?
    ensures var d, n := Dispatch(c, kind, timeoutMs, lands), |c.host.promises|;
            && |d.host.promises| == n + 1 && d.host.now == c.host.now
            && (forall i {:trigger d.host.promises[i]} :: 0 <= i < n ==> Moved(c, e, d, i))
            && n in d.pending && !d.host.promises[n].lost && (Threw(d.host.promises[n]) <==> !lands)
            && |d.host.promises[n].calls| == if lands then 0 else 1
  {
    var d, n := Dispatch(c, kind, timeoutMs, lands), |c.host.promises|;
    forall i | 0 <= i < n ensures Moved(c, e, d, i) {
      assert d.host.promises[i] == c.host.promises[i];
    }
  }

  lemma OpenedIsHandshake(c: Conn, s: nat)
    requires s < |c.host.sockets|
    ensures var c1 := StartPing(c.(host := c.host.(sockets := c.host.sockets[s := Open]), reconnectAttempt := 0));
            && OnOpened(c, s) == Dispatch(c1, Handshake, HANDSHAKE_TIMEOUT_MS, CanSend(c1))
            && (CanSend(c1) <==> !SendThrows(c, Opened(s)))
            && c1.host.promises == c.host.promises && c1.pending == c.pending && c1.host.now == c.host.now
  {
    hide Dispatch;
  }

  lemma OpenedMoves(c: Conn, s: nat)
    requires forall i :: i in c.pending ==> i < |c.host.promises|
    requires s < |c.host.sockets|
    ensures Moves(c, Opened(s), OnOpened(c, s))
  {
    var c1 := StartPing(c.(host := c.host.(sockets := c.host.sockets[s := Open]), reconnectAttempt := 0));
    OpenedIsHandshake(c, s);
    hide Dispatch, StartPing, OnOpened, SendThrows, CanSend;
    DispatchMoves(c1, Opened(s), Handshake, HANDSHAKE_TIMEOUT_MS, CanSend(c1));
    var d := OnOpened(c, s);
    forall i | 0 <= i < |c.host.promises| ensures Moved(c, Opened(s), d, i) {
      assert Moved(c1, Opened(s), d, i);
    }
  }

  lemma SettleMoves(c: Conn, e: Event, d: Conn, id: nat, outcome: Outcome)
    requires id in c.pending && id < |c.host.promises| && !SendThrows(c, e) && outcome != SendThrew
    requires !(e.Delivered? && ResolverThrows(c, e.message))
    requires d.host.promises == Settle(c.host, id, outcome).promises && d.pending == c.pending - {id}
    requires d.host.now == c.host.now
    ensures Moves(c, e, d)
  {
    forall i | 0 <= i < |c.host.promises| ensures Moved(c, e, d, i) {
      var p, q := c.host.promises[i], d.host.promises[i];
      if i == id { assert q.calls[..|p.calls|] == p.calls; } else { assert p == q; }
    }
  }

  lemma CleanupMoves(c: Conn, e: Event, d: Conn)
    requires Plain(e) && d.pending == map[] && d.host.now == c.host.now
    requires d.host.promises == Cleanup(c).host.promises && forall i :: i in c.pending ==> i < |c.host.promises|
    ensures Moves(c, e, d)
  {
    forall i | 0 <= i < |c.host.promises| ensures Moved(c, e, d, i) {
      var p, q := c.host.promises[i], d.host.promises[i];
      assert i in c.pending ==> q.calls[..|p.calls|] == p.calls;
    }
  }

  lemma IssueMoves(c: Conn, e: Event, kind: Kind, timeoutMs: nat)
    requires Plain(e) && forall i :: i in c.pending ==> i < |c.host.promises|
    ensures Moves(c, e, Issue(c, kind, timeoutMs))
  {
    var d := Issue(c, kind, timeoutMs);
    forall i | 0 <= i < |c.host.promises| ensures Moved(c, e, d, i) {
      assert d.host.promises[i] == c.host.promises[i];
    }
  }

  lemma MessageMoves(c: Conn, s: nat, m: Message)
    requires TimersOk(c)
    ensures Moves(c, Delivered(s, m), OnMessage(c, m))
  {
    PendingBound(c);
    MessageIsAnswer(c, m);
    var d, e := OnMessage(c, m), Delivered(s, m);
    hide TimersOk, Moves, OnMessage;
    if ResolverThrows(c, m) {
      LoseMoves(c, s, m);
    } else if Answered(c, m) {
      SettleMoves(c, e, d, Addressee(m).value, Verdict(m));
    } else {
      FrameMoves(c, e, d);
    }
  }

  lemma LoseMoves(c: Conn, s: nat, m: Message)
    requires ResolverThrows(c, m)
    ensures Moves(c, Delivered(s, m), Lose(c, m.id))
  {
    var d := Lose(c, m.id);
    forall i | 0 <= i < |c.host.promises| ensures Moved(c, Delivered(s, m), d, i) {
      if i != m.id { assert d.host.promises[i] == c.host.promises[i]; }
    }
  }

  lemma TickMoves(c: Conn, t: nat)
    requires TimersOk(c) && Enabled(c, Fired(t)) && c.host.timers[t].task == PingTick
    ensures Moves(c, Fired(t), OnFired(c, t))
  {
    PendingBound(c);
    hide TimersOk, Moves, Issue;
    var c3 := AwaitPong(Rearmed(c, t)).(heartbeatPending := true);
    if IsConnected(c) && !c.heartbeatPending {
      IssueMoves(c3, Fired(t), Heartbeat, c3.quickTimeoutMs);
      SameMoves(c3, c, Fired(t), OnFired(c, t));
    } else {
      FrameMoves(c, Fired(t), OnFired(c, t));
    }
  }

  lemma TimeoutMoves(c: Conn, t: nat)
    requires TimersOk(c) && Enabled(c, Fired(t)) && c.host.timers[t].task.RequestTimeout?
    ensures Moves(c, Fired(t), OnFired(c, t))
  {
    var id := c.host.timers[t].task.id;
    assert c.pending[id] == t && id < |c.host.promises|;
    hide TimersOk, Moves;
    SettleMoves(c, Fired(t), OnFired(c, t), id, TimedOut);
  }

  lemma FiredMoves(c: Conn, t: nat)
    requires TimersOk(c) && Enabled(c, Fired(t))
    ensures Moves(c, Fired(t), OnFired(c, t))
  {
    hide TimersOk, Moves;
    match c.host.timers[t].task
    case RequestTimeout(id) => TimeoutMoves(c, t);
    case PingTick => TickMoves(c, t);
    case _ => FrameMoves(c, Fired(t), OnFired(c, t));
  }

  lemma DisconnectMoves(c: Conn)
    requires forall i :: i in c.pending ==> i < |c.host.promises|
    ensures Moves(c, Disconnect, OnDisconnect(c))
  {
    hide Moves, Cleanup;
    var c1 := c.(isClosing := true, lastDisconnectReason := ClosedNormally,
                 pendingCloseCode := Some(ClosedByClient), currentState := Disconnected);
    CleanupFields(c1);
    CleanupMoves(c1, Disconnect, OnDisconnect(c));
    SameMoves(c1, c, Disconnect, OnDisconnect(c));
  }

  lemma ClosedMoves(c: Conn, s: nat, code: nat)
    requires s < |c.host.sockets| && forall i :: i in c.pending ==> i < |c.host.promises|
    ensures Moves(c, SocketClosed(s, code), OnClosed(c, s, code))
  {
    ClosedFields(c, s, code);
    var c1 := Classify(c.(host := c.host.(sockets := c.host.sockets[s := Closed])), code);
    CleanupFields(c1);
    hide OnClosed, Classify, Cleanup, Moves;
    CleanupMoves(c1, SocketClosed(s, code), OnClosed(c, s, code));
    SameMoves(c1, c, SocketClosed(s, code), OnClosed(c, s, code));
  }

  lemma StepMoves(c: Conn, e: Event)
    requires TimersOk(c) && Enabled(c, e)
    ensures Moves(c, e, Step(c, e))
  {
    PendingBound(c);
    hide TimersOk, Moves, OnOpened, OnMessage, OnFired, OnClosed, OnDisconnect, OnSend;
    match e
    case Opened(s) => OpenedMoves(c, s);
    case Delivered(s, m) => MessageMoves(c, s, m);
    case Fired(t) => FiredMoves(c, t);
    case Disconnect => DisconnectMoves(c);
    case SocketClosed(s, code) => ClosedMoves(c, s, code);
    case Send(timeoutMs, serialises) => SendMoves(c, timeoutMs, serialises);
    case _ =>
      hide *;
      OtherMoves(c, e);
  }

  lemma SendMoves(c: Conn, timeoutMs: Option<nat>, serialises: bool)
    requires forall i :: i in c.pending ==> i < |c.host.promises|
    ensures Moves(c, Send(timeoutMs, serialises), OnSend(c, timeoutMs, serialises))
  {
    var e := Send(timeoutMs, serialises);
    hide Dispatch, Moved, Threw;
    if IsConnected(c) {
      var ms := if timeoutMs.Some? then timeoutMs.value else c.quickTimeoutMs;
      DispatchMoves(c, e, Command, ms, serialises);
      var d := Dispatch(c, Command, ms, serialises);
      assert OnSend(c, timeoutMs, serialises) == d;
      forall i | 0 <= i < |c.host.promises| ensures Moved(c, e, d, i) {
        var p := d.host.promises[i];
        assert Moved(c, e, d, i);
      }
    } else {
      FrameMoves(c, e, c);
    }
  }

  lemma OtherMoves(c: Conn, e: Event)
    requires Enabled(c, e) && (e.Connect? || e.Pong? || e.SocketError? || e.Reaction? || e.Advance?)
    ensures Moves(c, e, Step(c, e))
  {
    hide Moves;
    FrameMoves(c, e, Step(c, e));
  }

  // ---- settled exactly once ----

  /** Every request in every run: it is in the pending map exactly while its own timeout is armed,
      and it is settled exactly once as it leaves the map, with two exceptions. One whose executor
      threw was settled by that already, so it comes to twice; one whose resolver threw comes to
      nothing. Heartbeats know neither, commands not the second. */
  lemma RequestsSettleOnce(autoReconnect: bool, quickTimeoutMs: nat, es: seq<Event>, i: nat)
    requires Run(Init(autoReconnect, quickTimeoutMs), es).Some?
    requires i < |Run(Init(autoReconnect, quickTimeoutMs), es).value.host.promises|
    ensures var c := Run(Init(autoReconnect, quickTimeoutMs), es).value;
            var p := c.host.promises[i];
            && (i in c.pending <==> exists t :: t in c.host.timers && c.host.timers[t].task == RequestTimeout(i))
            && |p.calls| == (if Threw(p) then 1 else 0) + (if i in c.pending || p.lost then 0 else 1)
            && (p.kind == Heartbeat ==> !Threw(p)) && (p.kind != Handshake ==> !p.lost) && (p.lost ==> i !in c.pending)
  {
    InitOk(autoReconnect, quickTimeoutMs);
    RunOk(Init(autoReconnect, quickTimeoutMs), es);
    var c := Run(Init(autoReconnect, quickTimeoutMs), es).value;
    hide Run;
    assert CountOk(c, i);
    if i in c.pending {
      assert c.host.timers[c.pending[i]].task == RequestTimeout(i);
    }
  }

  predicate OnceNow(c: Conn) {
    forall i {:trigger c.host.promises[i]} :: 0 <= i < |c.host.promises| ==> SettledOnce(c, i)
  }

  predicate OnceThroughout(c: Conn, es: seq<Event>)
    requires Run(c, es).Some?
  {
    OnceNow(Run(c, es).value) && (es != [] ==> OnceThroughout(c, es[..|es| - 1]))
  }

  predicate NothingThrows(c: Conn, es: seq<Event>)
    requires Run(c, es).Some?
  {
    es != [] ==>
      NothingThrows(c, es[..|es| - 1]) && !Throws(Run(c, es[..|es| - 1]).value, es[|es| - 1])
  }

  lemma StepOnce(c: Conn, e: Event)
    requires Inv(c) && OnceNow(c) && Enabled(c, e)
    ensures OnceNow(Step(c, e)) <==> !Throws(c, e)
  {
    StepMoves(c, e);
    hide *;
    MovesOnce(c, e, Step(c, e));
  }

  lemma MovesOnce(c: Conn, e: Event, d: Conn)
    requires OnceNow(c) && Moves(c, e, d)
    ensures OnceNow(d) <==> !Throws(c, e)
  {
    hide SendThrows, ResolverThrows, Moved;
    if SendThrows(c, e) {
      assert !SettledOnce(d, |c.host.promises|);
    } else if e.Delivered? && ResolverThrows(c, e.message) {
      LostOnce(c, e, d);
    } else {
      forall i | 0 <= i < |d.host.promises| ensures SettledOnce(d, i) {
        if i < |c.host.promises| { MovedOnce(c, e, d, i); }
      }
    }
  }

  lemma MovedOnce(c: Conn, e: Event, d: Conn, i: nat)
    requires i < |c.host.promises| <= |d.host.promises| && Moved(c, e, d, i) && SettledOnce(c, i) && !Loses(c, e, i)
    ensures SettledOnce(d, i)
  {}

  lemma LostOnce(c: Conn, e: Event, d: Conn)
    requires OnceNow(c) && Moves(c, e, d) && e.Delivered? && ResolverThrows(c, e.message)
    ensures !OnceNow(d)
  {
    var i := e.message.id;
    assert Loses(c, e, i);
    assert Moved(c, e, d, i) && SettledOnce(c, i);
    assert !SettledOnce(d, i);
  }

  /** Every request of every kind is settled once, and pending exactly while unsettled, throughout a
      run, if and only if no event of it makes an executor or a resolver throw: every `open` found
      the current socket sendable, every command's parameters serialised, and no handshake was
      answered with a null result. */
  lemma {:induction false} AllSettleOnceIffNothingThrows(c: Conn, es: seq<Event>)
    requires Inv(c) && OnceNow(c) && Run(c, es).Some?
    ensures OnceThroughout(c, es) <==> NothingThrows(c, es)
  {
    if es != [] {
      var front := es[..|es| - 1];
      AllSettleOnceIffNothingThrows(c, front);
      RunOk(c, front);
      hide Inv, OnceNow, Throws, Step, Enabled;
      if OnceThroughout(c, front) {
        StepOnce(Run(c, front).value, es[|es| - 1]);
      }
    }
  }

  /** The calling discipline that keeps every send landing: `connect` is only called while every
      socket made so far has closed and no reconnect is armed. */
  predicate CalmCall(c: Conn, e: Event) {
    e == Connect ==> c.reconnectTimeout == None && forall s :: 0 <= s < |c.host.sockets| ==> c.host.sockets[s] == Closed
  }

  predicate Calm(c: Conn, es: seq<Event>)
    requires Run(c, es).Some?
  {
    es != [] ==> Calm(c, es[..|es| - 1]) && CalmCall(Run(c, es[..|es| - 1]).value, es[|es| - 1])
  }

  /** What the caller or the editor can hand in that makes code throw: parameters that do not
      serialise, and a null result for a handshake in flight. */
  predicate BadData(c: Conn, e: Event) {
    (e.Send? && IsConnected(c) && !e.serialises) || (e.Delivered? && ResolverThrows(c, e.message))
  }

  predicate NoBadData(c: Conn, es: seq<Event>)
    requires Run(c, es).Some?
  {
    es != [] ==> NoBadData(c, es[..|es| - 1]) && !BadData(Run(c, es[..|es| - 1]).value, es[|es| - 1])
  }

  predicate Live(c: Conn, s: nat) {
    s < |c.host.sockets| && c.host.sockets[s] != Closed
  }

  /** One live socket at most, none while a reconnect is armed, and only the current one dials. */
  ghost predicate OneSocket(c: Conn) {
    && (forall s: nat, k: nat :: Live(c, s) && Live(c, k) ==> s == k)
    && (forall s: nat :: Live(c, s) ==>
          c.reconnectTimeout == None && (c.host.sockets[s] == Connecting ==> c.ws == Some(s)))
  }

  lemma SameSockets(c: Conn, d: Conn)
    requires OneSocket(c) && d.host.sockets == c.host.sockets && d.ws == c.ws
    requires d.reconnectTimeout == c.reconnectTimeout
    ensures OneSocket(d)
  {
    assert forall s: nat :: Live(d, s) <==> Live(c, s);
  }

  lemma StepOneSocket(c: Conn, e: Event)
    requires Inv(c) && OneSocket(c) && Enabled(c, e) && CalmCall(c, e)
    ensures OneSocket(Step(c, e)) && (Throws(c, e) <==> BadData(c, e))
  {
    InvLinks(c);
    hide Inv, OneSocket, Live, Throws, BadData, SendThrows;
    hide OnConnect, OnDisconnect, OnSend, OnOpened, OnMessage, OnClosed, OnFired, ClearPong, OnError, OnReaction;
    match e
    case Connect => ConnectOneSocket(c);
    case Disconnect => DisconnectOneSocket(c);
    case Send(timeoutMs, serialises) => SendOneSocket(c, timeoutMs, serialises);
    case SocketClosed(s, code) => ClosedOneSocket(c, s, code);
    case Opened(s) => OpenedOneSocket(c, s);
    case Delivered(_, m) => MessageOneSocket(c, m);
    case Fired(t) => FiredOneSocket(c, t);
    case _ => OtherOneSocket(c, e);
    ThrowsIffBad(c, e);
  }

  lemma ThrowsIffBad(c: Conn, e: Event)
    requires e.Opened? ==> !SendThrows(c, e)
    ensures Throws(c, e) <==> BadData(c, e)
  {
    hide ResolverThrows, CanSend;
  }

  lemma ConnectOneSocket(c: Conn)
    requires OneSocket(c) && CalmCall(c, Connect)
    ensures OneSocket(OnConnect(c))
  {
    var d := OnConnect(c);
    if !IsConnected(c) {
      assert d.host.sockets == c.host.sockets + [Connecting] && d.reconnectTimeout == None;
      hide OnConnect;
      assert forall s: nat :: Live(d, s) ==> s == |c.host.sockets|;
    }
  }

  lemma SendOneSocket(c: Conn, timeoutMs: Option<nat>, serialises: bool)
    requires OneSocket(c)
    ensures OneSocket(OnSend(c, timeoutMs, serialises))
  {
    hide OneSocket, OnSend;
    SendIsQuiet(c, timeoutMs, serialises);
    SameSockets(c, OnSend(c, timeoutMs, serialises));
  }

  lemma MessageOneSocket(c: Conn, m: Message)
    requires OneSocket(c)
    ensures OneSocket(OnMessage(c, m))
  {
    hide OneSocket, OnMessage;
    MessageFields(c, m);
    SameSockets(c, OnMessage(c, m));
  }

  lemma OtherOneSocket(c: Conn, e: Event)
    requires OneSocket(c) && Enabled(c, e) && (e.Pong? || e.SocketError? || e.Reaction? || e.Advance?)
    ensures OneSocket(Step(c, e))
  {
    hide OneSocket, Step;
    OtherIsQuiet(c, e);
    SameSockets(c, Step(c, e));
  }

  lemma DisconnectOneSocket(c: Conn)
    requires OneSocket(c) && (c.ws.Some? ==> c.ws.value < |c.host.sockets|)
    ensures OneSocket(OnDisconnect(c))
  {
    var c1 := c.(isClosing := true, lastDisconnectReason := ClosedNormally,
                 pendingCloseCode := Some(ClosedByClient), currentState := Disconnected);
    CleanupFields(c1);
    hide Cleanup;
    var d := OnDisconnect(c);
    assert forall s: nat :: Live(d, s) ==> Live(c, s) && d.host.sockets[s] != Connecting;
  }

  lemma ClosedOneSocket(c: Conn, s: nat, code: nat)
    requires OneSocket(c) && Live(c, s)
    ensures OneSocket(OnClosed(c, s, code))
  {
    ClosedOutcome(c, s, code);
    hide OnClosed;
    var d := OnClosed(c, s, code);
    assert forall k: nat :: Live(d, k) ==> Live(c, k) && k != s;
  }

  lemma OpenedOneSocket(c: Conn, s: nat)
    requires OneSocket(c) && Live(c, s) && c.host.sockets[s] == Connecting
    ensures OneSocket(OnOpened(c, s)) && !SendThrows(c, Opened(s))
  {
    var d := OnOpened(c, s);
    OpenedIsQuiet(c, s);
    hide OnOpened;
    assert forall k: nat :: Live(d, k) <==> Live(c, k);
  }

  lemma ReconnectOneSocket(c: Conn, t: nat)
    requires TimersOk(c) && OneSocket(c) && Enabled(c, Fired(t)) && c.host.timers[t].task == Reconnect
    ensures OneSocket(OnFired(c, t))
  {
    assert c.reconnectTimeout == Some(t);
    hide TimersOk;
    var d := OnFired(c, t);
    assert forall s: nat :: !Live(c, s);
    assert !SocketIs(c, Open);
    assert d.host.sockets == c.host.sockets + [Connecting];
    assert forall s: nat :: Live(d, s) ==> Live(c, s) || s == |c.host.sockets|;
  }

  lemma PongOneSocket(c: Conn, t: nat)
    requires OneSocket(c) && Enabled(c, Fired(t)) && c.host.timers[t].task == PongTimeout
    ensures OneSocket(OnFired(c, t))
  {
    var d := OnFired(c, t);
    assert |d.host.sockets| == |c.host.sockets| && d.ws == c.ws && d.reconnectTimeout == c.reconnectTimeout;
    assert forall s: nat :: Live(d, s) ==>
      Live(c, s) && (d.host.sockets[s] == Connecting ==> c.host.sockets[s] == Connecting);
    hide OnFired;
  }

  lemma FiredOneSocket(c: Conn, t: nat)
    requires TimersOk(c) && OneSocket(c) && Enabled(c, Fired(t))
    ensures OneSocket(OnFired(c, t))
  {
    hide TimersOk, OneSocket, OnFired;
    match c.host.timers[t].task
    case Reconnect => ReconnectOneSocket(c, t);
    case PongTimeout => PongOneSocket(c, t);
    case PingTick => TickIsQuiet(c, t); SameSockets(c, OnFired(c, t));
    case RequestTimeout(_) => TimeoutIsQuiet(c, t); SameSockets(c, OnFired(c, t));
  }

  /** A client whose owner connects calmly, and whose own reconnects may do what they like, never
      loses a handshake's send; so there every request settles once and only once exactly when no
      bad data comes in. */
  lemma {:induction false} CalmRunsSettleOnce(autoReconnect: bool, quickTimeoutMs: nat, es: seq<Event>)
    requires Run(Init(autoReconnect, quickTimeoutMs), es).Some?
    requires Calm(Init(autoReconnect, quickTimeoutMs), es)
    ensures OneSocket(Run(Init(autoReconnect, quickTimeoutMs), es).value)
    ensures NothingThrows(Init(autoReconnect, quickTimeoutMs), es)
            <==> NoBadData(Init(autoReconnect, quickTimeoutMs), es)
    ensures OnceThroughout(Init(autoReconnect, quickTimeoutMs), es)
            <==> NoBadData(Init(autoReconnect, quickTimeoutMs), es)
  {
    var c0 := Init(autoReconnect, quickTimeoutMs);
    InitOk(autoReconnect, quickTimeoutMs);
    if es != [] {
      var front := es[..|es| - 1];
      CalmRunsSettleOnce(autoReconnect, quickTimeoutMs, front);
      RunOk(c0, front);
      hide Inv, OneSocket, Step, Enabled, CalmCall, Throws, BadData;
      StepOneSocket(Run(c0, front).value, es[|es| - 1]);
    }
    AllSettleOnceIffNothingThrows(c0, es);
  }

  /** Nothing sent yet, no timer armed. */
  predicate Fresh(c: Conn, sockets: seq<ReadyState>) {
    && c.host == Host(0, 0, map[], sockets, [], {}) && c.pending == map[]
    && c.pingInterval == None && c.pongTimeout == None
  }

  lemma OpenOnAnotherSocket(c: Conn)
    requires Fresh(c, [Connecting, Connecting]) && c.ws == Some(1)
    ensures var d := OnOpened(c, 0);
            && d.host.now == 0
            && d.host.timers == map[0 := Timer(30000, PingTick), 1 := Timer(5000, RequestTimeout(0))]
            && |d.host.promises| == 1 && d.pending == map[0 := 1]
            && d.host.promises[0] == Promise(Handshake, 0, 5000, [Settlement(SendThrew, 0)], false)
  {
    var started := c.(host := c.host.(sockets := [Open, Connecting]), reconnectAttempt := 0);
    assert c.host.sockets[0 := Open] == [Open, Connecting];
    var p := StartPing(started);
    FirstPing(started, [Open, Connecting]);
    hide StartPing, Issue;
    var h := Issue(p, Handshake, HANDSHAKE_TIMEOUT_MS);
    FirstHandshake(p);
    assert [] + [Settlement(SendThrew, 0)] == [Settlement(SendThrew, 0)];
  }

  lemma FirstPing(c: Conn, sockets: seq<ReadyState>)
    requires Fresh(c, sockets)
    ensures StartPing(c).host == Host(0, 1, map[0 := Timer(30000, PingTick)], sockets, [], {})
    ensures StartPing(c) == c.(host := StartPing(c).host, pingInterval := Some(0))
  {
  }

  lemma FirstHandshake(c: Conn)
    requires c.host == Host(0, 1, map[0 := Timer(30000, PingTick)], c.host.sockets, [], {}) && c.pending == map[]
    ensures var d := Issue(c, Handshake, HANDSHAKE_TIMEOUT_MS);
            && d.host.timers == map[0 := Timer(30000, PingTick), 1 := Timer(5000, RequestTimeout(0))]
            && d.host == Host(0, 2, d.host.timers, c.host.sockets, [Promise(Handshake, 0, 5000, [], false)], {})
            && d == c.(host := d.host, pending := map[0 := 1])
  {
    IssueIs(c, Handshake, HANDSHAKE_TIMEOUT_MS);
    hide Issue;
  }

  /** Two overlapping `connect` calls are enough to break it: the first socket's `open` sends its
      handshake on the second socket, still connecting; the throw settles the promise, and its
      request stays pending under a live timeout. */
  lemma OverlappingConnects()
    ensures var r := Run(Init(true, 30000), [Connect, Connect, Opened(0)]);
            && r.Some? && r.value.host.now == 0
            && r.value.host.timers == map[0 := Timer(30000, PingTick), 1 := Timer(5000, RequestTimeout(0))]
            && |r.value.host.promises| == 1 && r.value.pending == map[0 := 1]
            && r.value.host.promises[0] == Promise(Handshake, 0, 5000, [Settlement(SendThrew, 0)], false)
  {
    hide OnOpened, OnDisconnect, OnSend, OnMessage, OnClosed, OnFired, OnReaction, ClearPong;
    var c0 := Init(true, 30000);
    var c1 := RunTo(c0, [], Connect);
    assert [] + [Connect] == [Connect];
    var c2 := RunTo(c0, [Connect], Connect);
    assert [] + [Connect] + [Connect] == [Connect, Connect];
    assert Fresh(c2, [Connecting, Connecting]) && c2.ws == Some(1);
    OpenOnAnotherSocket(c2);
    var c3 := RunTo(c0, [Connect, Connect], Opened(0));
  }

  /** Left alone, that request is settled a second time when its timeout runs out. */
  lemma OverlappingConnectsSettleTwice()
    ensures var r := Run(Init(true, 30000), [Connect, Connect, Opened(0), Advance(5000), Fired(1)]);
            && r.Some? && |r.value.host.promises| == 1
            && r.value.host.promises[0].calls == [Settlement(SendThrew, 0), Settlement(TimedOut, 5000)]
  {
    OverlappingConnects();
    hide Run, OnOpened, OnDisconnect, OnSend, OnMessage, OnClosed, OnReaction, ClearPong, OnConnect;
    var c0, es := Init(true, 30000), [Connect, Connect, Opened(0)];
    var c4 := RunTo(c0, es, Advance(5000));
    var c5 := RunTo(c0, es + [Advance(5000)], Fired(1));
    assert es + [Advance(5000)] + [Fired(1)] == [Connect, Connect, Opened(0), Advance(5000), Fired(1)];
  }

  /** Extends a run by one event. */
  lemma RunTo(c: Conn, es: seq<Event>, e: Event) returns (d: Conn)
    requires Run(c, es).Some? && Enabled(Run(c, es).value, e)
    ensures Run(c, es + [e]) == Some(d) && d == Step(Run(c, es).value, e)
  {
    assert (es + [e])[..|es|] == es;
    d := Step(Run(c, es).value, e);
  }

  // ---- what one reply, one close, one disconnect does ----

  lemma AnswerTouchesOnlyItsOwn(c: Conn, id: nat, outcome: Outcome, i: nat)
    requires DueOk(c) && id in c.pending && i < |c.host.promises|
    ensures var d := Answer(c, id, outcome);
            && |d.host.promises| == |c.host.promises|
            && d.host.promises[i]
               == (if i == id then Called(c.host.promises[i], outcome, c.host.now) else c.host.promises[i])
            && (i in d.pending <==> i in c.pending && i != id)
            && (i in c.pending ==> if i == id then c.pending[i] !in d.host.timers
                else d.pending[i] == c.pending[i] && c.pending[i] in d.host.timers
                     && d.host.timers[c.pending[i]] == c.host.timers[c.pending[i]])
  {
  }

  lemma LoseTouchesOnlyItsOwn(c: Conn, id: nat, i: nat)
    requires DueOk(c) && id in c.pending && i < |c.host.promises|
    ensures var d := Lose(c, id);
            && |d.host.promises| == |c.host.promises|
            && d.host.promises[i]
               == (if i == id then c.host.promises[i].(lost := true) else c.host.promises[i])
            && (i in d.pending <==> i in c.pending && i != id)
            && (i in c.pending ==> if i == id then c.pending[i] !in d.host.timers
                else d.pending[i] == c.pending[i] && c.pending[i] in d.host.timers
                     && d.host.timers[c.pending[i]] == c.host.timers[c.pending[i]])
  {
  }

  /** A reply takes the in-flight request it names out of the map, disarms its timeout and settles
      it with its own content, or loses it if it is a handshake's null result; every other request,
      its place in the map and its timer included, is untouched, and a reply to nobody in flight
      changes nothing at all. */
  lemma ReplyTouchesOnlyItsOwn(c: Conn, m: Message, i: nat)
    requires Inv(c) && i < |c.host.promises|
    ensures var (d, p) := (OnMessage(c, m), c.host.promises[i]);
            var hit := Addressee(m) == Some(i) && i in c.pending;
            && |d.host.promises| == |c.host.promises|
            && d.host.promises[i] == (if !hit then p
                 else if m.Success? && m.result == None && p.kind == Handshake then p.(lost := true)
                 else Called(p, Verdict(m), c.host.now))
            && (i in d.pending <==> i in c.pending && !hit)
            && (i in c.pending ==> if hit then c.pending[i] !in d.host.timers
                else d.pending[i] == c.pending[i] && c.pending[i] in d.host.timers
                     && d.host.timers[c.pending[i]] == c.host.timers[c.pending[i]])
            && ((Addressee(m) == None || Addressee(m).value !in c.pending) ==> d == c)
  {
    InvLinks(c);
    PendingArmed(c, i);
    hide Inv, DueOk, Answer, Lose, OnMessage;
    MessageIsAnswer(c, m);
    if ResolverThrows(c, m) {
      LoseTouchesOnlyItsOwn(c, m.id, i);
    } else if Answered(c, m) {
      AnswerTouchesOnlyItsOwn(c, Addressee(m).value, Verdict(m), i);
    }
  }

  lemma PendingArmed(c: Conn, i: nat)
    requires Inv(c)
    ensures DueOk(c) && (i in c.pending ==> c.pending[i] in c.host.timers)
  {
  }

  function CodeOfClose(c: Conn, code: nat): CloseCode {
    if code == CLOSE_CODE_ALREADY_CONNECTED then RejectedAnotherClient
    else if code == CLOSE_CODE_REPLACED then ReplacedByNewClient
    else if code == CLOSE_CODE_STALE then StaleClosedByServer
    else if c.currentState == Connected then ConnectionLost
    else if c.lastDisconnectReason == NeverConnected then ConnectionRefused
    else CloseUnknown
  }

  /** A close, of any socket, rejects every request in flight with the one code its close number
      stands for, leaves the settled ones alone, and leaves nothing in flight. */
  lemma CloseRejectsAllInFlight(c: Conn, s: nat, code: nat, i: nat)
    requires Inv(c) && s < |c.host.sockets| && i < |c.host.promises|
    ensures var d := OnClosed(c, s, code);
            && d.pending == map[] && |d.host.promises| == |c.host.promises|
            && d.host.promises[i] == (if i in c.pending
                 then Called(c.host.promises[i], ConnectionClosed(CodeOfClose(c, code)), c.host.now)
                 else c.host.promises[i])
  {
    InFlightExists(c);
    assert c.pendingCloseCode == None;
    hide Inv, OnClosed, Classify, Cleanup, CleanupCode, CodeOfClose;
    ClosedFields(c, s, code);
    var c0 := c.(host := c.host.(sockets := c.host.sockets[s := Closed]));
    ClassifyCode(c0, code);
    assert CodeOfClose(c0, code) == CodeOfClose(c, code);
    CleanupFields(Classify(c0, code));
  }

  lemma ClassifyCode(c: Conn, code: nat)
    requires c.pendingCloseCode == None
    ensures CleanupCode(Classify(c, code)) == CodeOfClose(c, code)
  {
  }

  lemma InFlightExists(c: Conn)
    requires Inv(c)
    ensures forall i :: i in c.pending ==> i < |c.host.promises|
  {
  }

  lemma DisconnectRejectsAllInFlight(c: Conn, i: nat)
    requires Inv(c) && i < |c.host.promises|
    ensures var d := OnDisconnect(c);
            && d.pending == map[] && d.ws == None && d.isClosing && d.host.timers == map[]
            && |d.host.promises| == |c.host.promises|
            && d.host.promises[i] == (if i in c.pending
                 then Called(c.host.promises[i], ConnectionClosed(ClosedByClient), c.host.now)
                 else c.host.promises[i])
  {
    var c1 := c.(isClosing := true, lastDisconnectReason := ClosedNormally,
                 pendingCloseCode := Some(ClosedByClient), currentState := Disconnected);
    assert c.ws.Some? ==> c.ws.value < |c.host.sockets|;
    assert TimersOk(c);
    hide Inv;
    FrameTimers(c, c1);
    CleanupTimers(c1);
    CleanupFields(c1);
    hide TimersOk, Cleanup;
  }

  /** Told to close, with no current socket and no reconnect armed. */
  predicate HungUp(c: Conn) {
    c.isClosing && c.ws == None && c.reconnectTimeout == None
  }

  /** Nothing dialled and no reconnect armed between the two states. */
  predicate StaysDown(c: Conn, d: Conn) {
    HungUp(d) && |d.host.sockets| == |c.host.sockets| && d.armings == c.armings
  }

  lemma StepHungUp(c: Conn, e: Event)
    requires TimersOk(c) && HungUp(c) && Enabled(c, e) && e != Connect
    ensures StaysDown(c, Step(c, e))
  {
    hide TimersOk, OnDisconnect, OnSend, OnOpened, OnMessage, OnClosed, OnFired, ClearPong, OnError, OnReaction;
    match e
    case Disconnect => HungUpDisconnects(c);
    case Send(timeoutMs, serialises) => SendIsQuiet(c, timeoutMs, serialises);
    case SocketClosed(s, code) => ClosedOutcome(c, s, code);
    case Opened(s) => OpenedIsQuiet(c, s);
    case Delivered(_, m) => MessageFields(c, m);
    case Fired(t) => HungUpFired(c, t);
    case _ => OtherIsQuiet(c, e);
  }

  lemma HungUpDisconnects(c: Conn)
    requires HungUp(c)
    ensures StaysDown(c, OnDisconnect(c))
  {
    CleanupFields(c.(isClosing := true, lastDisconnectReason := ClosedNormally,
                     pendingCloseCode := Some(ClosedByClient), currentState := Disconnected));
    hide Cleanup;
  }

  lemma HungUpFired(c: Conn, t: nat)
    requires TimersOk(c) && HungUp(c) && Enabled(c, Fired(t))
    ensures StaysDown(c, OnFired(c, t))
  {
    assert c.host.timers[t].task != Reconnect;
    hide TimersOk;
    match c.host.timers[t].task
    case PingTick => TickIsQuiet(c, t); hide OnFired;
    case RequestTimeout(_) => TimeoutIsQuiet(c, t); hide OnFired;
    case PongTimeout =>
  }

  lemma {:induction false} HungUpUntilConnect(c: Conn, es: seq<Event>)
    requires Inv(c) && HungUp(c) && Run(c, es).Some? && !Dialled(es)
    ensures StaysDown(c, Run(c, es).value)
  {
    if es != [] {
      var front := es[..|es| - 1];
      HungUpUntilConnect(c, front);
      RunOk(c, front);
      var b := Run(c, front).value;
      assert TimersOk(b);
      hide TimersOk, PromisesOk, HeartbeatOk, FieldsOk, Step, Enabled, HungUp;
      StepHungUp(b, es[|es| - 1]);
    }
  }

  /** After `disconnect` and until the next `connect`, whatever happens, late events of old sockets
      included: no socket is created or current, and no reconnect is armed. */
  lemma DisconnectStaysDown(c: Conn, es: seq<Event>)
    requires Inv(c) && Run(Step(c, Disconnect), es).Some? && !Dialled(es)
    ensures var d := Run(Step(c, Disconnect), es).value;
            && d.isClosing && d.ws == None && |d.host.sockets| == |c.host.sockets|
            && (forall t :: t in d.host.timers ==> d.host.timers[t].task != Reconnect) && d.armings == c.armings
  {
    var d := Step(c, Disconnect);
    StepOk(c, Disconnect);
    DisconnectHangsUp(c);
    assert d == OnDisconnect(c);
    hide PromisesOk, HeartbeatOk, FieldsOk, Step, OnDisconnect, Run, Dialled;
    HungUpUntilConnect(d, es);
    RunOk(d, es);
    NoReconnectArmed(Run(d, es).value);
    hide TimersOk;
  }

  lemma NoReconnectArmed(c: Conn)
    requires TimersOk(c) && HungUp(c)
    ensures forall t :: t in c.host.timers ==> c.host.timers[t].task != Reconnect
  {
  }

  lemma DisconnectHangsUp(c: Conn)
    requires Inv(c)
    ensures StaysDown(c, OnDisconnect(c))
  {
    InvLinks(c);
    hide Inv, Cleanup, HangUp, Rejected;
    var c1 := c.(isClosing := true, lastDisconnectReason := ClosedNormally,
                 pendingCloseCode := Some(ClosedByClient), currentState := Disconnected);
    CleanupFields(c1);
    HangUpIs(Cleanup(c1));
  }

  lemma HangUpIs(c: Conn)
    requires c.ws.Some? ==> c.ws.value < |c.host.sockets|
    ensures var d := HangUp(c);
            && d == c.(host := d.host, ws := None) && |d.host.sockets| == |c.host.sockets|
  {
  }

  // ---- timed safety ----

  /** A promise no longer pending keeps the settlements it has, or has not, for ever; and no request
      comes to have thrown later than at its sending. */
  lemma {:induction false} SettledForGood(c: Conn, es: seq<Event>, i: nat)
    requires Inv(c) && Run(c, es).Some? && i < |c.host.promises|
    ensures var d := Run(c, es).value;
            && i < |d.host.promises| && c.host.now <= d.host.now
            && d.host.promises[i].(calls := [], lost := false) == c.host.promises[i].(calls := [], lost := false)
            && (Threw(d.host.promises[i]) <==> Threw(c.host.promises[i]))
            && (i !in c.pending ==> i !in d.pending && d.host.promises[i].calls == c.host.promises[i].calls)
  {
    if es != [] {
      var front := es[..|es| - 1];
      SettledForGood(c, front, i);
      RunOk(c, front);
      var b := Run(c, front).value;
      StepMoves(b, es[|es| - 1]);
      hide Step, Enabled, TimersOk, PromisesOk, HeartbeatOk, FieldsOk;
      assert Moved(b, es[|es| - 1], Step(b, es[|es| - 1]), i);
    }
  }

  /** A command is settled once, and pending exactly while unsettled, over every continuation of the
      run, if and only if its parameters serialise; if they do not it ends settled twice. */
  lemma CommandSettlesOnceIffSerialises(c: Conn, timeoutMs: Option<nat>, serialises: bool, es: seq<Event>)
    requires Inv(c) && IsConnected(c) && Run(Step(c, Send(timeoutMs, serialises)), es).Some?
    ensures var (d, id) := (Run(Step(c, Send(timeoutMs, serialises)), es).value, |c.host.promises|);
            && id < |d.host.promises| && (SettledOnce(d, id) <==> serialises)
            && (!serialises && id !in d.pending ==> |d.host.promises[id].calls| == 2)
  {
    var e, id := Send(timeoutMs, serialises), |c.host.promises|;
    var c1 := Step(c, e);
    StepOk(c, e);
    assert c1.host.promises[id].kind == Command && (Threw(c1.host.promises[id]) <==> !serialises);
    SettledForGood(c1, es, id);
    RunOk(c1, es);
    hide Run, Step, HeartbeatOk, FieldsOk, TimersOk, PromisesOk;
    InTime(Run(c1, es).value, id);
  }

  /** A handshake lost to a null result is never settled, and what waits for it never goes on. */
  lemma LostForGood(c: Conn, s: nat, m: Message, es: seq<Event>)
    requires Inv(c) && Enabled(c, Delivered(s, m)) && ResolverThrows(c, m) && c.host.promises[m.id].calls == []
    requires Run(Step(c, Delivered(s, m)), es).Some?
    ensures var d := Run(Step(c, Delivered(s, m)), es).value;
            && m.id < |d.host.promises| && d.host.promises[m.id].calls == []
            && m.id !in d.pending && m.id !in d.host.reactions
  {
    StepOk(c, Delivered(s, m));
    var c1 := Step(c, Delivered(s, m));
    assert c1 == Lose(c, m.id);
    SettledForGood(c1, es, m.id);
    RunOk(c1, es);
    hide Run, Step, TimersOk, HeartbeatOk, FieldsOk;
  }

  /** In every run, a request of any kind whose deadline has passed has left the pending map and is
      settled, none of it after the deadline, unless its resolver threw. */
  lemma EveryRequestSettlesInTime(autoReconnect: bool, quickTimeoutMs: nat, es: seq<Event>, i: nat)
    requires Run(Init(autoReconnect, quickTimeoutMs), es).Some?
    requires i < |Run(Init(autoReconnect, quickTimeoutMs), es).value.host.promises|
    ensures var c := Run(Init(autoReconnect, quickTimeoutMs), es).value;
            var p := c.host.promises[i];
            && (c.host.now > p.sentAt + p.delay ==> i !in c.pending && (p.calls != [] || p.lost))
            && (forall k :: 0 <= k < |p.calls| ==> p.calls[k].at <= p.sentAt + p.delay)
  {
    InitOk(autoReconnect, quickTimeoutMs);
    RunOk(Init(autoReconnect, quickTimeoutMs), es);
    var c := Run(Init(autoReconnect, quickTimeoutMs), es).value;
    hide Run, HeartbeatOk, FieldsOk;
    InTime(c, i);
  }

  lemma InTime(c: Conn, i: nat)
    requires TimersOk(c) && PromisesOk(c) && i < |c.host.promises|
    ensures var p := c.host.promises[i];
            && (c.host.now > p.sentAt + p.delay ==> i !in c.pending)
            && CallsOk(p, c.host.now) && CountOk(c, i)
  {
    assert i in c.pending ==> c.pending[i] in c.host.timers;
  }

  /** A command sent with a derived timeout is settled by its server deadline, never later than
      the absolute ceiling after it was sent, and times out on that deadline or not at all. */
  lemma DerivedRequestSettlesInTime(c: Conn, budget: Number, readyWait: bool, serialises: bool, es: seq<Event>)
    requires Inv(c) && IsConnected(c)
    requires Run(Step(c, Send(Some(DeriveTimeouts(budget, readyWait).serverMs), serialises)), es).Some?
    ensures var t := DeriveTimeouts(budget, readyWait);
            var d := Run(Step(c, Send(Some(t.serverMs), serialises)), es).value;
            var id := |c.host.promises|;
            && id < |d.host.promises| && t.serverMs <= 60000
            && (d.host.now > c.host.now + t.serverMs ==> |d.host.promises[id].calls| == if serialises then 1 else 2)
            && (forall k :: 0 <= k < |d.host.promises[id].calls| ==>
                  var call := d.host.promises[id].calls[k];
                  && call.at <= c.host.now + t.serverMs
                  && (call.outcome == TimedOut ==> call.at == c.host.now + t.serverMs))
  {
    var t, id := DeriveTimeouts(budget, readyWait), |c.host.promises|;
    var e := Send(Some(t.serverMs), serialises);
    var c1 := Step(c, e);
    StepOk(c, e);
    CommandSent(c, t.serverMs, serialises);
    SettledForGood(c1, es, id);
    RunOk(c1, es);
    hide Run, Step, HeartbeatOk, FieldsOk, TimersOk, PromisesOk;
    InTime(Run(c1, es).value, id);
  }

  lemma CommandSent(c: Conn, timeoutMs: nat, serialises: bool)
    requires IsConnected(c) && 1 <= timeoutMs <= MAX_TIMER_MS
    ensures var (d, id) := (OnSend(c, Some(timeoutMs), serialises), |c.host.promises|);
            && id < |d.host.promises| && id in d.pending
            && d.host.promises[id] == Promise(Command, c.host.now, timeoutMs,
                                              if serialises then [] else [Settlement(SendThrew, c.host.now)], false)
  {
    assert [] + [Settlement(SendThrew, c.host.now)] == [Settlement(SendThrew, c.host.now)];
  }

  /** A reply handled before the relay's wait plus the server margin has passed always wins: the
      request never ends in a timeout, and if nothing settled it earlier it ends in that reply. */
  lemma PromptReplyNeverTimesOut(c: Conn, budget: Number, readyWait: bool, es: seq<Event>,
                                 s: nat, m: Message, after: seq<Event>)
    requires Inv(c) && IsConnected(c)
    requires Run(Step(c, Send(Some(DeriveTimeouts(budget, readyWait).serverMs), true)), es).Some?
    requires var mid := Run(Step(c, Send(Some(DeriveTimeouts(budget, readyWait).serverMs), true)), es).value;
             && mid.host.now < c.host.now + DeriveTimeouts(budget, readyWait).relayMs + SERVER_MARGIN_MS
             && Enabled(mid, Delivered(s, m)) && Addressee(m) == Some(|c.host.promises|)
             && Run(Step(mid, Delivered(s, m)), after).Some?
    ensures var t := DeriveTimeouts(budget, readyWait);
            var mid := Run(Step(c, Send(Some(t.serverMs), true)), es).value;
            var d := Run(Step(mid, Delivered(s, m)), after).value;
            var id := |c.host.promises|;
            && id < |mid.host.promises| && id < |d.host.promises| && |d.host.promises[id].calls| == 1
            && d.host.promises[id].calls[0].outcome != TimedOut
            && (mid.host.promises[id].calls == [] ==>
                  d.host.promises[id].calls == [Settlement(Verdict(m), mid.host.now)])
  {
    var t, id := DeriveTimeouts(budget, readyWait), |c.host.promises|;
    var c1 := Step(c, Send(Some(t.serverMs), true));
    StepOk(c, Send(Some(t.serverMs), true));
    CommandSent(c, t.serverMs, true);
    hide Inv, Step, Run, DeriveTimeouts;
    DerivedRequestSettlesInTime(c, budget, readyWait, true, es);
    SettledForGood(c1, es, id);
    RunOk(c1, es);
    ReplyWins(Run(c1, es).value, s, m, after);
  }

  /** A reply handled before a command's or a heartbeat's deadline settles it, if nothing has yet, for
      ever. */
  lemma ReplyWins(c: Conn, s: nat, m: Message, after: seq<Event>)
    requires Inv(c) && Enabled(c, Delivered(s, m)) && Run(Step(c, Delivered(s, m)), after).Some?
    requires Addressee(m).Some? && Addressee(m).value < |c.host.promises|
    requires var p := c.host.promises[Addressee(m).value];
             p.kind != Handshake && !Threw(p) && c.host.now < p.sentAt + p.delay
    ensures var (id, d) := (Addressee(m).value, Run(Step(c, Delivered(s, m)), after).value);
            && id < |d.host.promises| && |d.host.promises[id].calls| == 1
            && d.host.promises[id].calls[0].outcome != TimedOut
            && (c.host.promises[id].calls == [] ==> d.host.promises[id].calls == [Settlement(Verdict(m), c.host.now)])
  {
    var id := Addressee(m).value;
    assert CallsOk(c.host.promises[id], c.host.now) && CountOk(c, id);
    ReplyTouchesOnlyItsOwn(c, m, id);
    StepOk(c, Delivered(s, m));
    assert Step(c, Delivered(s, m)) == OnMessage(c, m);
    hide Inv, Step, Run, OnMessage;
    SettledForGood(OnMessage(c, m), after, id);
    assert [] + [Settlement(Verdict(m), c.host.now)] == [Settlement(Verdict(m), c.host.now)];
  }

  // ---- never latched dead, never doubled ----

  predicate Dialled(es: seq<Event>) {
    es != [] && (Dialled(es[..|es| - 1]) || es[|es| - 1] == Connect)
  }

  lemma {:induction false} DialledHasSockets(c: Conn, es: seq<Event>)
    requires Inv(c) && Run(c, es).Some?
    ensures Dialled(es) ==> Run(c, es).value.host.sockets != []
    ensures Run(c, es).value.autoReconnect == c.autoReconnect
  {
    if es != [] {
      var front := es[..|es| - 1];
      DialledHasSockets(c, front);
      RunOk(c, front);
      hide Inv, Step, Enabled;
      StepKeeps(Run(c, front).value, es[|es| - 1]);
    }
  }

  /** A reconnecting client that has dialled and has not been told to close always has a socket
      whose close is still to come, or a reconnect armed to go off within 30 seconds. */
  lemma NeverLatchedDead(quickTimeoutMs: nat, es: seq<Event>)
    requires Run(Init(true, quickTimeoutMs), es).Some? && Dialled(es)
    requires !Run(Init(true, quickTimeoutMs), es).value.isClosing
    ensures var c := Run(Init(true, quickTimeoutMs), es).value;
            || (exists s :: 0 <= s < |c.host.sockets| && c.host.sockets[s] != Closed)
            || (exists t :: t in c.host.timers && c.host.timers[t].task == Reconnect
                            && c.host.now <= c.host.timers[t].deadline <= c.host.now + 30000)
  {
    InitOk(true, quickTimeoutMs);
    RunOk(Init(true, quickTimeoutMs), es);
    DialledHasSockets(Init(true, quickTimeoutMs), es);
    hide Run, PromisesOk, HeartbeatOk, BackoffOk, PongSole, RequestTimers;
  }

  /** One reconnect timer, one ping interval and one pong timer at most, each held by its handle,
      and one heartbeat not yet seen through at most. */
  lemma TimersNeverDouble(autoReconnect: bool, quickTimeoutMs: nat, es: seq<Event>)
    requires Run(Init(autoReconnect, quickTimeoutMs), es).Some?
    ensures var c := Run(Init(autoReconnect, quickTimeoutMs), es).value;
            && (forall t, u | t in c.host.timers && u in c.host.timers ::
                  c.host.timers[t].task == c.host.timers[u].task && !c.host.timers[t].task.RequestTimeout? ==> t == u)
            && (forall t :: t in c.host.timers ==>
                  match c.host.timers[t].task
                  case Reconnect => c.reconnectTimeout == Some(t)
                  case PingTick => c.pingInterval == Some(t)
                  case PongTimeout => c.pongTimeout == Some(t)
                  case RequestTimeout(i) => i in c.pending && c.pending[i] == t)
            && (forall i, j :: i in HeartbeatsOut(c) && j in HeartbeatsOut(c) ==> i == j)
            && (c.heartbeatPending <==> HeartbeatsOut(c) != {})
  {
    InitOk(autoReconnect, quickTimeoutMs);
    RunOk(Init(autoReconnect, quickTimeoutMs), es);
    hide Run, PromisesOk, FieldsOk, HeartbeatsOut;
  }

  // ---- backoff ----

  function Rejections(es: seq<Event>): nat {
    if es == [] then 0 else
    Rejections(es[..|es| - 1])
    + (var e := es[|es| - 1]; if e.SocketClosed? && e.code == CLOSE_CODE_ALREADY_CONNECTED then 1 else 0)
  }

  lemma {:induction false} RunRejections(c: Conn, es: seq<Event>)
    requires Inv(c) && Run(c, es).Some?
    ensures Run(c, es).value.rejectionCount == c.rejectionCount + Rejections(es)
  {
    if es != [] {
      var front := es[..|es| - 1];
      RunRejections(c, front);
      RunOk(c, front);
      hide Inv, Step, Enabled;
      StepKeeps(Run(c, front).value, es[|es| - 1]);
    }
  }

  /** The n-th rejection of a reconnecting client, whatever happened before it, arms one reconnect
      at the (n-1)-th delay of the ladder, or at its last. */
  lemma NthRejectionBacksOff(quickTimeoutMs: nat, es: seq<Event>, s: nat)
    requires Run(Init(true, quickTimeoutMs), es).Some?
    requires var c := Run(Init(true, quickTimeoutMs), es).value;
             !c.isClosing && Enabled(c, SocketClosed(s, CLOSE_CODE_ALREADY_CONNECTED))
    ensures var c := Run(Init(true, quickTimeoutMs), es).value;
            var d := OnClosed(c, s, CLOSE_CODE_ALREADY_CONNECTED);
            var n := Rejections(es) + 1;
            var delay := RECONNECT_DELAYS[if n - 1 <= 5 then n - 1 else 5];
            && d.armings == c.armings + [Arming(n, delay, c.host.now)]
            && d.reconnectTimeout.Some? && d.reconnectTimeout.value in d.host.timers
            && d.host.timers == map[d.reconnectTimeout.value := Timer(c.host.now + delay, Reconnect)]
  {
    hide Run, Inv, OnClosed, Rejections;
    var c0 := Init(true, quickTimeoutMs);
    InitOk(true, quickTimeoutMs);
    RunOk(c0, es);
    RunRejections(c0, es);
    DialledHasSockets(c0, es);
    RejectionArms(Run(c0, es).value, s);
  }

  lemma RejectionArms(c: Conn, s: nat)
    requires Inv(c) && c.autoReconnect && !c.isClosing && s < |c.host.sockets|
    ensures var d := OnClosed(c, s, CLOSE_CODE_ALREADY_CONNECTED);
            var delay := RECONNECT_DELAYS[if c.rejectionCount <= 5 then c.rejectionCount else 5];
            && d.armings == c.armings + [Arming(c.rejectionCount + 1, delay, c.host.now)]
            && d.reconnectTimeout.Some? && d.reconnectTimeout.value in d.host.timers
            && d.host.timers == map[d.reconnectTimeout.value := Timer(c.host.now + delay, Reconnect)]
  {
    assert TimersOk(c) by { hide TimersOk; }
    hide Inv, TimersOk, OnClosed, ReconnectDelay;
    ClosedOutcome(c, s, CLOSE_CODE_ALREADY_CONNECTED);
    ClosedArms(c, s, CLOSE_CODE_ALREADY_CONNECTED);
    DelayOf(c.rejectionCount);
  }

  lemma DelayOf(n: nat)
    ensures ReconnectDelay(n) == RECONNECT_DELAYS[if n <= 5 then n else 5]
  {
  }

  lemma ClosedArms(c: Conn, s: nat, code: nat)
    requires TimersOk(c) && s < |c.host.sockets| && c.autoReconnect && !c.isClosing
    ensures var d := OnClosed(c, s, code);
            && d.reconnectTimeout == Some(c.host.nextTimer)
            && d.host.timers == map[c.host.nextTimer := Timer(c.host.now + ClosedArming(c, code).delay, Reconnect)]
  {
    hide TimersOk, Classify, Cleanup, ReconnectDelay, ScheduleReconnect, Rejected;
    var c1 := c.(host := c.host.(sockets := c.host.sockets[s := Closed]));
    var c2 := Classify(c1, code);
    var c3 := Cleanup(c2);
    ClassifyFields(c1, code);
    FrameTimers(c, c2);
    CleanupTimers(c2);
    CleanupFields(c2);
    ScheduleArms(c3, if code == CLOSE_CODE_ALREADY_CONNECTED then c3.rejectionCount else 0);
  }

  lemma ScheduleArms(c: Conn, rejection: nat)
    requires c.reconnectTimeout == None && c.host.timers == map[]
    ensures var d := ScheduleReconnect(c, rejection);
            && d.reconnectTimeout == Some(c.host.nextTimer)
            && d.host.timers
               == map[c.host.nextTimer := Timer(c.host.now + ReconnectDelay(c.reconnectAttempt), Reconnect)]
  {
    hide ReconnectDelay;
  }

  /** So over a whole run the delays that answer rejections never decrease, although every `open`
      in between resets the attempt counter. */
  lemma RejectionDelaysNeverDecrease(autoReconnect: bool, quickTimeoutMs: nat, es: seq<Event>, j: nat, k: nat)
    requires Run(Init(autoReconnect, quickTimeoutMs), es).Some?
    requires var a := Run(Init(autoReconnect, quickTimeoutMs), es).value.armings;
             j < k < |a| && a[j].rejection > 0 && a[k].rejection > 0
    ensures var a := Run(Init(autoReconnect, quickTimeoutMs), es).value.armings;
            a[j].rejection < a[k].rejection && a[j].delay <= a[k].delay
  {
    InitOk(autoReconnect, quickTimeoutMs);
    RunOk(Init(autoReconnect, quickTimeoutMs), es);
    hide Run, TimersOk, PromisesOk, HeartbeatOk;
  }

  // ---- what the state label says ----

  /** The client calls itself connected over an open socket only. */
  predicate Honest(c: Conn) {
    c.currentState == Connected ==> IsConnected(c)
  }

  /** The rest of an `open` handler runs when the current socket is not, or no longer, open; or a
      pong timeout terminates the socket of a client that calls itself connected. */
  predicate Misleads(c: Conn, e: Event) {
    || (e.Reaction? && e.id < |c.host.promises| && c.host.promises[e.id].kind == Handshake && !IsConnected(c))
    || (e.Fired? && e.timer in c.host.timers && c.host.timers[e.timer].task == PongTimeout
        && c.currentState == Connected)
  }

  predicate HonestThroughout(c: Conn, es: seq<Event>)
    requires Run(c, es).Some?
  {
    Honest(Run(c, es).value) && (es != [] ==> HonestThroughout(c, es[..|es| - 1]))
  }

  predicate NothingMisleads(c: Conn, es: seq<Event>)
    requires Run(c, es).Some?
  {
    es != [] ==>
      NothingMisleads(c, es[..|es| - 1]) && !Misleads(Run(c, es[..|es| - 1]).value, es[|es| - 1])
  }

  lemma StepHonest(c: Conn, e: Event)
    requires Inv(c) && Honest(c) && Enabled(c, e)
    ensures Honest(Step(c, e)) <==> !Misleads(c, e)
  {
    InvLinks(c);
    hide Inv, IsConnected, Quiet;
    hide OnConnect, OnDisconnect, OnSend, OnOpened, OnMessage, OnClosed, OnFired, ClearPong, OnError, OnReaction;
    match e
    case Connect => ConnectHonest(c);
    case Disconnect => DisconnectLabel(c);
    case Send(timeoutMs, serialises) => SendIsQuiet(c, timeoutMs, serialises); QuietHonest(c, Step(c, e));
    case SocketClosed(s, code) => ClosedOutcome(c, s, code);
    case Opened(s) => OpenedHonest(c, s);
    case Delivered(_, m) => MessageHonest(c, m);
    case Fired(t) => FiredHonest(c, t);
    case Reaction(id) => ReactionHonest(c, id);
    case _ => OtherIsQuiet(c, e); QuietHonest(c, Step(c, e));
  }

  lemma QuietHonest(c: Conn, d: Conn)
    requires Honest(c) && Quiet(c, d) && d.currentState == c.currentState
    ensures Honest(d)
  {
  }

  lemma OpenedHonest(c: Conn, s: nat)
    requires Honest(c) && s < |c.host.sockets|
    ensures Honest(OnOpened(c, s))
  {
    OpenedIsQuiet(c, s);
    hide OnOpened;
  }

  lemma MessageHonest(c: Conn, m: Message)
    requires Honest(c)
    ensures Honest(OnMessage(c, m))
  {
    MessageFields(c, m);
    hide OnMessage;
  }

  lemma ConnectHonest(c: Conn)
    requires Honest(c)
    ensures Honest(OnConnect(c))
  {
  }

  lemma DisconnectLabel(c: Conn)
    ensures OnDisconnect(c).currentState == Disconnected
  {
    CleanupFields(c.(isClosing := true, lastDisconnectReason := ClosedNormally,
                     pendingCloseCode := Some(ClosedByClient), currentState := Disconnected));
    hide Cleanup;
  }

  lemma ReactionHonest(c: Conn, id: nat)
    requires Honest(c) && id < |c.host.promises|
    ensures Honest(OnReaction(c, id)) <==> !Misleads(c, Reaction(id))
  {
  }

  lemma FiredHonest(c: Conn, t: nat)
    requires Honest(c) && Enabled(c, Fired(t)) && (c.ws.Some? ==> c.ws.value < |c.host.sockets|)
    ensures Honest(OnFired(c, t)) <==> !Misleads(c, Fired(t))
  {
    hide OnFired, Quiet, IsConnected;
    match c.host.timers[t].task
    case PingTick => TickIsQuiet(c, t); QuietHonest(c, OnFired(c, t));
    case RequestTimeout(_) => TimeoutIsQuiet(c, t); QuietHonest(c, OnFired(c, t));
    case PongTimeout => PongLabel(c, t);
    case Reconnect => ReconnectHonest(c, t);
  }

  lemma PongLabel(c: Conn, t: nat)
    requires t in c.host.timers && c.host.timers[t].task == PongTimeout
    ensures !IsConnected(OnFired(c, t)) && OnFired(c, t).currentState == c.currentState
  {
  }

  lemma ReconnectHonest(c: Conn, t: nat)
    requires Honest(c) && t in c.host.timers && c.host.timers[t].task == Reconnect
    ensures Honest(OnFired(c, t))
  {
  }

  /** The label says connected over an open socket only, throughout a run, if and only if nothing
      in it misleads: every `open` handler that goes on after its `await` finds the current socket
      open, and no pong timeout runs out on a client that calls itself connected. */
  lemma {:induction false} LabelIsHonestIffNothingMisleads(c: Conn, es: seq<Event>)
    requires Inv(c) && Honest(c) && Run(c, es).Some?
    ensures HonestThroughout(c, es) <==> NothingMisleads(c, es)
  {
    if es != [] {
      var front := es[..|es| - 1];
      LabelIsHonestIffNothingMisleads(c, front);
      RunOk(c, front);
      hide Inv, Honest, Misleads, Step, Enabled;
      if HonestThroughout(c, front) {
        StepHonest(Run(c, front).value, es[|es| - 1]);
      }
    }
  }

  /** The rest of the `open` handler runs even after the socket it waited on has closed: this run
      ends labelled connected with no open socket at all, waiting to reconnect. */
  lemma ConnectedWithoutSocket()
    ensures var r := Run(Init(true, 30000), [Connect, Opened(0), SocketClosed(0, 1006), Reaction(0)]);
            r.Some? && r.value.currentState == Connected && !IsConnected(r.value)
  {
    hide OnOpened, OnClosed;
    var c0 := Init(true, 30000);
    var c1 := RunTo(c0, [], Connect);
    assert Fresh(c1, [Connecting]) && c1.ws == Some(0);
    var c2 := RunTo(c0, [Connect], Opened(0));
    OpenOnOwnSocket(c1);
    assert [] + [Connect] + [Opened(0)] == [Connect, Opened(0)];
    hide Run;
    var c3 := RunTo(c0, [Connect, Opened(0)], SocketClosed(0, 1006));
    CloseQueuesHandshake(c2, 1006);
    assert [Connect, Opened(0)] + [SocketClosed(0, 1006)] == [Connect, Opened(0), SocketClosed(0, 1006)];
    var c4 := RunTo(c0, [Connect, Opened(0), SocketClosed(0, 1006)], Reaction(0));
    assert [Connect, Opened(0), SocketClosed(0, 1006)] + [Reaction(0)]
        == [Connect, Opened(0), SocketClosed(0, 1006), Reaction(0)];
  }

  /** An `open` answered with a null result, without any overlap: the handshake has left the pending
      map and its timer is gone, it is not settled, and the client never gets to call itself
      connected. */
  lemma NullResultLosesHandshake()
    ensures var r := Run(Init(true, 30000), [Connect, Opened(0), Delivered(0, Success(0, None))]);
            && r.Some? && r.value.pending == map[] && IsConnected(r.value)
            && |r.value.host.promises| == 1 && r.value.host.promises[0].kind == Handshake
            && r.value.host.promises[0].calls == [] && r.value.host.promises[0].lost
            && r.value.handshakeResult == None && r.value.currentState == ConnectingPhase
  {
    hide OnOpened, OnClosed;
    var c0 := Init(true, 30000);
    var c1 := RunTo(c0, [], Connect);
    assert Fresh(c1, [Connecting]) && c1.ws == Some(0);
    var c2 := RunTo(c0, [Connect], Opened(0));
    OpenOnOwnSocket(c1);
    assert [] + [Connect] + [Opened(0)] == [Connect, Opened(0)];
    hide Run;
    var c3 := RunTo(c0, [Connect, Opened(0)], Delivered(0, Success(0, None)));
    assert [Connect, Opened(0)] + [Delivered(0, Success(0, None))]
        == [Connect, Opened(0), Delivered(0, Success(0, None))];
    assert c3 == Lose(c2, 0);
  }

  lemma OpenOnOwnSocket(c: Conn)
    requires Fresh(c, [Connecting]) && c.ws == Some(0)
    ensures var d := OnOpened(c, 0);
            && d.host.sockets == [Open] && d.ws == Some(0) && d.pending.Keys == {0} && d.host.reactions == {}
            && d.handshakeResult == c.handshakeResult && d.currentState == c.currentState
            && d.host.promises == [Promise(Handshake, 0, 5000, [], false)]
  {
    var started := c.(host := c.host.(sockets := [Open]), reconnectAttempt := 0);
    assert c.host.sockets[0 := Open] == [Open];
    FirstPing(started, [Open]);
    FirstHandshake(StartPing(started));
    hide StartPing, Issue;
  }

  lemma CloseQueuesHandshake(c: Conn, code: nat)
    requires c.host.sockets == [Open] && c.ws == Some(0) && 0 in c.pending
    requires |c.host.promises| == 1 && c.host.promises[0].kind == Handshake && c.host.promises[0].calls == []
    ensures var d := OnClosed(c, 0, code);
            && 0 in d.host.reactions && |d.host.promises| == 1 && d.host.promises[0].kind == Handshake
            && d.host.sockets == [Closed] && d.ws == Some(0)
  {
    ClosedFields(c, 0, code);
    ClosedOutcome(c, 0, code);
    var c1 := Classify(c.(host := c.host.(sockets := c.host.sockets[0 := Closed])), code);
    hide OnClosed, Classify;
    assert 0 in Cleanup(c1).host.reactions && Cleanup(c1).host.promises[0].kind == Handshake;
  }
}

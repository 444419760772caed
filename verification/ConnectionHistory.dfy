/** What the fields of a client say about its past: each is read off the events of the run alone. */
module ConnectionHistory {
  import opened Options
  import opened ConnectionModel
  import opened ConnectionInvariants
  import opened ConnectionSafety

  // ---- what each event does to each field ----

  /** A call of `connect`, or an armed reconnect going off, while no socket is open. */
  predicate Dials(c: Conn, e: Event) {
    (e.Connect? || FiresTask(c, e, Reconnect)) && !IsConnected(c)
  }

  predicate FiresTask(c: Conn, e: Event, task: Task) {
    e.Fired? && e.timer in c.host.timers && c.host.timers[e.timer].task == task
  }

  /** The rest of an `open` handler runs, after its handshake has been settled either way. */
  predicate Resumes(c: Conn, e: Event) {
    e.Reaction? && e.id < |c.host.promises| && c.host.promises[e.id].kind == Handshake
  }

  function SocketMoves(c: Conn, e: Event, s: nat): ReadyState
    requires s < |c.host.sockets|
  {
    if e == Opened(s) then Open
    else if e.SocketClosed? && e.socket == s then Closed
    else if (e.Disconnect? || FiresTask(c, e, PongTimeout)) && c.ws == Some(s) && c.host.sockets[s] != Closed
    then Closing
    else c.host.sockets[s]
  }

  /** Sockets, and what the client makes of them. */
  predicate SocketsColumn(c: Conn, e: Event, d: Conn) {
    && |d.host.sockets| == |c.host.sockets| + (if Dials(c, e) then 1 else 0)
    && (forall s {:trigger d.host.sockets[s]} :: 0 <= s < |c.host.sockets| ==>
          d.host.sockets[s] == SocketMoves(c, e, s))
    && (Dials(c, e) ==> d.host.sockets[|c.host.sockets|] == Connecting)
    && d.ws == (if Dials(c, e) then Some(|c.host.sockets|) else if e.Disconnect? then None else c.ws)
    && d.isClosing == (if Dials(c, e) then false else e.Disconnect? || c.isClosing)
    && d.autoReconnect == c.autoReconnect && d.quickTimeoutMs == c.quickTimeoutMs
  }

  predicate LabelColumn(c: Conn, e: Event, d: Conn) {
    d.currentState ==
      if e.Disconnect? || e.SocketClosed? then Disconnected
      else if Dials(c, e) then (if c.reconnectAttempt > 0 then Reconnecting else ConnectingPhase)
      else if Resumes(c, e) then Connected
      else c.currentState
  }

  function ReasonOfClose(code: nat, wasConnected: bool, before: Reason): Reason {
    if code == 4001 then RejectedAnother
    else if code == 4003 then Replaced
    else if code == 4002 || wasConnected then Lost
    else if before == NeverConnected then Refused
    else before
  }

  predicate ReasonColumn(c: Conn, e: Event, d: Conn) {
    d.lastDisconnectReason ==
      match e
      case Disconnect => ClosedNormally
      case SocketError(_, refused) => if refused then Refused else Failed
      case SocketClosed(_, code) => ReasonOfClose(code, c.currentState == Connected, c.lastDisconnectReason)
      case _ => c.lastDisconnectReason
  }

  function AtMost(n: nat, cap: nat): nat {
    if n < cap then n else cap
  }

  /** The attempts counter as a close finds it when it arms a reconnect. */
  function AttemptsAtClose(c: Conn, code: nat): nat {
    if code == 4001 then AtMost(c.rejectionCount, 5) else c.reconnectAttempt
  }

  predicate AttemptsColumn(c: Conn, e: Event, d: Conn) {
    d.reconnectAttempt ==
      match e
      case Opened(_) => 0
      case SocketClosed(_, code) => AttemptsAtClose(c, code) + if c.autoReconnect && !c.isClosing then 1 else 0
      case _ => c.reconnectAttempt
  }

  predicate HandshakeColumn(c: Conn, e: Event, d: Conn) {
    d.handshakeResult ==
      if e.Disconnect? || e.SocketClosed? then None
      else if e.Delivered? && Greets(c, e.message) then Some(HandshakeSuccess(e.message.result.value))
      else if GivesUpGreeting(c, e) then Some(HandshakeTimeout)
      else c.handshakeResult
  }

  /** A handshake in flight is answered with a result. */
  predicate Greets(c: Conn, m: Message) {
    m.Success? && m.result.Some? && m.id in c.pending && m.id < |c.host.promises|
    && c.host.promises[m.id].kind == Handshake
  }

  predicate GivesUpGreeting(c: Conn, e: Event) {
    e.Fired? && e.timer in c.host.timers &&
    var task := c.host.timers[e.timer].task;
    task.RequestTimeout? && task.id < |c.host.promises| && c.host.promises[task.id].kind == Handshake
  }

  predicate Columns(c: Conn, e: Event, d: Conn) {
    && SocketsColumn(c, e, d) && LabelColumn(c, e, d) && ReasonColumn(c, e, d)
    && AttemptsColumn(c, e, d) && HandshakeColumn(c, e, d)
  }

  // ---- handler by handler ----

  /** The fields only dialling, closing, errors and the handshake write. */
  predicate SameFace(c: Conn, d: Conn) {
    && d.host.sockets == c.host.sockets && d.ws == c.ws && d.isClosing == c.isClosing
    && d.autoReconnect == c.autoReconnect && d.quickTimeoutMs == c.quickTimeoutMs
    && d.currentState == c.currentState && d.lastDisconnectReason == c.lastDisconnectReason
    && d.reconnectAttempt == c.reconnectAttempt && d.handshakeResult == c.handshakeResult
  }

  lemma SameFaceColumns(c: Conn, e: Event, d: Conn)
    requires SameFace(c, d) && (e.Send? || e.Pong? || e.Advance? || FiresTask(c, e, PingTick))
    ensures Columns(c, e, d)
  {
  }

  lemma SendFace(c: Conn, timeoutMs: Option<nat>, serialises: bool)
    ensures SameFace(c, OnSend(c, timeoutMs, serialises))
  {
  }

  lemma PongFace(c: Conn)
    ensures SameFace(c, ClearPong(c))
  {
  }

  lemma TickFace(c: Conn, t: nat)
    requires t in c.host.timers && c.host.timers[t].task == PingTick
    ensures SameFace(c, OnFired(c, t))
  {
  }

  lemma ConnectColumns(c: Conn)
    ensures Columns(c, Connect, OnConnect(c))
  {
  }

  lemma ReconnectColumns(c: Conn, t: nat)
    requires t in c.host.timers && c.host.timers[t].task == Reconnect
    ensures Columns(c, Fired(t), OnFired(c, t))
  {
  }

  lemma PongTimeoutColumns(c: Conn, t: nat)
    requires t in c.host.timers && c.host.timers[t].task == PongTimeout
    requires c.ws.Some? ==> c.ws.value < |c.host.sockets|
    ensures Columns(c, Fired(t), OnFired(c, t))
  {
  }

  lemma TimeoutColumns(c: Conn, t: nat)
    requires t in c.host.timers && c.host.timers[t].task.RequestTimeout?
    ensures Columns(c, Fired(t), OnFired(c, t))
  {
    hide Settle;
    var id := c.host.timers[t].task.id;
    if id < |c.host.promises| { SettleKeepsSockets(Without(c.host, t), id); }
  }

  lemma SettleKeepsSockets(h: Host, id: nat)
    requires id < |h.promises|
    ensures Settle(h, id, TimedOut).sockets == h.sockets
  {
  }

  lemma OpenedColumns(c: Conn, s: nat)
    requires s < |c.host.sockets|
    ensures Columns(c, Opened(s), OnOpened(c, s))
  {
    OpenedFace(c, s);
    hide OnOpened;
  }

  lemma OpenedFace(c: Conn, s: nat)
    requires s < |c.host.sockets|
    ensures var d := OnOpened(c, s);
            && d.host.sockets == c.host.sockets[s := Open]
            && SameFace(c.(host := d.host, reconnectAttempt := 0), d)
  {
  }

  lemma MessageColumns(c: Conn, s: nat, m: Message)
    requires forall i :: i in c.pending ==> i < |c.host.promises|
    ensures Columns(c, Delivered(s, m), OnMessage(c, m))
  {
    MessageFields(c, m);
    MessageGreets(c, m);
    hide OnMessage, Greets;
  }

  lemma MessageGreets(c: Conn, m: Message)
    requires forall i :: i in c.pending ==> i < |c.host.promises|
    ensures OnMessage(c, m).handshakeResult
         == if Greets(c, m) then Some(HandshakeSuccess(m.result.value)) else c.handshakeResult
  {
    hide Settle, ClearTimer;
  }

  lemma ErrorColumns(c: Conn, s: nat, refused: bool)
    ensures Columns(c, SocketError(s, refused), OnError(c, refused))
  {
  }

  lemma ReactionColumns(c: Conn, id: nat)
    requires id < |c.host.promises|
    ensures Columns(c, Reaction(id), OnReaction(c, id))
  {
  }

  lemma DisconnectColumns(c: Conn)
    requires c.ws.Some? ==> c.ws.value < |c.host.sockets|
    ensures Columns(c, Disconnect, OnDisconnect(c))
  {
    var c1 := c.(isClosing := true, lastDisconnectReason := ClosedNormally,
                 pendingCloseCode := Some(ClosedByClient), currentState := Disconnected);
    CleanupFields(c1);
    hide Cleanup, Rejected;
  }

  lemma ClosedColumns(c: Conn, s: nat, code: nat)
    requires s < |c.host.sockets|
    ensures Columns(c, SocketClosed(s, code), OnClosed(c, s, code))
  {
    ClosedFace(c, s, code);
    ClosedReason(c, s, code);
    ClosedAttempts(c, s, code);
    hide OnClosed, ReasonOfClose, AttemptsAtClose;
  }

  lemma ClosedFace(c: Conn, s: nat, code: nat)
    requires s < |c.host.sockets|
    ensures var d := OnClosed(c, s, code);
            && d.host.sockets == c.host.sockets[s := Closed] && d.ws == c.ws && d.isClosing == c.isClosing
            && d.autoReconnect == c.autoReconnect && d.quickTimeoutMs == c.quickTimeoutMs
            && d.currentState == Disconnected && d.handshakeResult == None
  {
    hide Classify, Cleanup, ScheduleReconnect, ReconnectDelay, Rejected;
    var c1 := c.(host := c.host.(sockets := c.host.sockets[s := Closed]));
    ClassifyFields(c1, code);
    CleanupFields(Classify(c1, code));
    var c3 := Cleanup(Classify(c1, code));
    ScheduleFields(c3, if code == CLOSE_CODE_ALREADY_CONNECTED then c3.rejectionCount else 0);
  }

  lemma ClassifyIs(c: Conn, code: nat)
    ensures var d := Classify(c, code);
            && d.lastDisconnectReason == ReasonOfClose(code, c.currentState == Connected, c.lastDisconnectReason)
            && d.reconnectAttempt == AttemptsAtClose(c, code)
  {
  }

  lemma ClosedReason(c: Conn, s: nat, code: nat)
    requires s < |c.host.sockets|
    ensures OnClosed(c, s, code).lastDisconnectReason
         == ReasonOfClose(code, c.currentState == Connected, c.lastDisconnectReason)
  {
    hide Classify, Cleanup, ScheduleReconnect, ReasonOfClose, Rejected;
    var c1 := c.(host := c.host.(sockets := c.host.sockets[s := Closed]));
    ClassifyIs(c1, code);
    CleanupFields(Classify(c1, code));
    var c3 := Cleanup(Classify(c1, code));
    ScheduleFields(c3, if code == CLOSE_CODE_ALREADY_CONNECTED then c3.rejectionCount else 0);
  }

  lemma ScheduleCounts(c: Conn, rejection: nat)
    requires c.reconnectTimeout == None
    ensures ScheduleReconnect(c, rejection).reconnectAttempt == c.reconnectAttempt + 1
  {
  }

  lemma ClosedAttempts(c: Conn, s: nat, code: nat)
    requires s < |c.host.sockets|
    ensures OnClosed(c, s, code).reconnectAttempt
         == AttemptsAtClose(c, code) + if c.autoReconnect && !c.isClosing then 1 else 0
  {
    hide Classify, Cleanup, ScheduleReconnect, AttemptsAtClose, Rejected;
    var c1 := c.(host := c.host.(sockets := c.host.sockets[s := Closed]));
    ClassifyIs(c1, code);
    ClassifyFields(c1, code);
    SameCounters(c, c1, code);
    CleanupFields(Classify(c1, code));
    var c3 := Cleanup(Classify(c1, code));
    ScheduleCounts(c3, if code == CLOSE_CODE_ALREADY_CONNECTED then c3.rejectionCount else 0);
  }

  lemma SameCounters(c: Conn, d: Conn, code: nat)
    requires d.rejectionCount == c.rejectionCount && d.reconnectAttempt == c.reconnectAttempt
    ensures AttemptsAtClose(d, code) == AttemptsAtClose(c, code)
  {
  }

  lemma FiredColumns(c: Conn, t: nat)
    requires t in c.host.timers && (c.ws.Some? ==> c.ws.value < |c.host.sockets|)
    ensures Columns(c, Fired(t), OnFired(c, t))
  {
    hide Columns, OnFired, SameFace;
    match c.host.timers[t].task
    case PingTick => TickFace(c, t); SameFaceColumns(c, Fired(t), OnFired(c, t));
    case RequestTimeout(_) => TimeoutColumns(c, t);
    case PongTimeout => PongTimeoutColumns(c, t);
    case Reconnect => ReconnectColumns(c, t);
  }

  /** Every event writes the sockets, the label, the reason, the attempts counter and the handshake
      result exactly so. */
  lemma StepColumns(c: Conn, e: Event)
    requires Inv(c) && Enabled(c, e)
    ensures Columns(c, e, Step(c, e))
  {
    InvLinks(c);
    hide Inv, Columns, SameFace;
    hide OnConnect, OnDisconnect, OnSend, OnOpened, OnMessage, OnClosed, OnFired, ClearPong, OnError, OnReaction;
    match e
    case Connect => ConnectColumns(c);
    case Disconnect => DisconnectColumns(c);
    case Send(timeoutMs, serialises) => SendFace(c, timeoutMs, serialises); SameFaceColumns(c, e, Step(c, e));
    case Opened(s) => OpenedColumns(c, s);
    case Delivered(s, m) => MessageColumns(c, s, m);
    case Pong(_) => PongFace(c); SameFaceColumns(c, e, Step(c, e));
    case SocketClosed(s, code) => ClosedColumns(c, s, code);
    case SocketError(s, refused) => ErrorColumns(c, s, refused);
    case Fired(t) => FiredColumns(c, t);
    case Reaction(id) => ReactionColumns(c, id);
    case Advance(ms) => AdvanceFace(c, ms); SameFaceColumns(c, e, Step(c, e));
  }

  lemma AdvanceFace(c: Conn, ms: nat)
    ensures SameFace(c, c.(host := c.host.(now := c.host.now + ms)))
  {
  }

  // ---- over runs ----

  /** The state before the last event of a run. */
  function Before(c: Conn, es: seq<Event>): Conn
    requires es != [] && Run(c, es).Some?
  {
    Run(c, es[..|es| - 1]).value
  }

  function Last(es: seq<Event>): Event
    requires es != []
  {
    es[|es| - 1]
  }

  lemma LastStep(c: Conn, es: seq<Event>)
    requires Inv(c) && es != [] && Run(c, es).Some?
    ensures Run(c, es[..|es| - 1]).Some? && Inv(Before(c, es)) && Enabled(Before(c, es), Last(es))
    ensures Run(c, es).value == Step(Before(c, es), Last(es))
    ensures Columns(Before(c, es), Last(es), Run(c, es).value)
  {
    RunOk(c, es[..|es| - 1]);
    hide Inv, Enabled, Step, Columns;
    StepColumns(Before(c, es), Last(es));
  }

  /** A `disconnect` came after the last dial. */
  predicate ToldToClose(c: Conn, es: seq<Event>)
    requires Run(c, es).Some?
  {
    es != [] && (Last(es).Disconnect? || (!Dials(Before(c, es), Last(es)) && ToldToClose(c, es[..|es| - 1])))
  }

  /** How often the run dialled. */
  function DialCount(c: Conn, es: seq<Event>): nat
    requires Run(c, es).Some?
  {
    if es == [] then 0 else
    DialCount(c, es[..|es| - 1]) + if Dials(Before(c, es), Last(es)) then 1 else 0
  }

  /** A client is closing exactly when a `disconnect` came after its last dial; it has made one socket
      per dial, and its current one is the last of them, unless a `disconnect` has come since. */
  lemma {:induction false} ClosingIffTold(autoReconnect: bool, quickTimeoutMs: nat, es: seq<Event>)
    requires Run(Init(autoReconnect, quickTimeoutMs), es).Some?
    ensures var c0 := Init(autoReconnect, quickTimeoutMs);
            var c := Run(c0, es).value;
            && (c.isClosing <==> ToldToClose(c0, es))
            && |c.host.sockets| == DialCount(c0, es)
            && c.ws == (if ToldToClose(c0, es) || |c.host.sockets| == 0 then None else Some(|c.host.sockets| - 1))
            && c.autoReconnect == autoReconnect && c.quickTimeoutMs == quickTimeoutMs
  {
    hide Inv, Enabled, Step, Run, Dials, SocketsColumn, LabelColumn, ReasonColumn, AttemptsColumn, HandshakeColumn;
    var c0 := Init(autoReconnect, quickTimeoutMs);
    if es == [] {
      NothingRun(c0);
    } else {
      InitOk(autoReconnect, quickTimeoutMs);
      LastStep(c0, es);
      ClosingIffTold(autoReconnect, quickTimeoutMs, es[..|es| - 1]);
      DialledOrTold(Before(c0, es), Last(es), Run(c0, es).value);
    }
  }

  lemma DialledOrTold(c: Conn, e: Event, d: Conn)
    requires SocketsColumn(c, e, d)
    ensures |d.host.sockets| == |c.host.sockets| + (if Dials(c, e) then 1 else 0)
    ensures d.ws == (if Dials(c, e) then Some(|c.host.sockets|) else if e.Disconnect? then None else c.ws)
    ensures d.isClosing == (if Dials(c, e) then false else e.Disconnect? || c.isClosing)
    ensures d.autoReconnect == c.autoReconnect && d.quickTimeoutMs == c.quickTimeoutMs
    ensures Dials(c, e) ==> !e.Disconnect?
  {
    hide IsConnected;
  }

  /** The attempts a close finds: none since the last `open`, or as many as the rejections before
      it, up to five, after a rejection. */
  function Attempts(c: Conn, es: seq<Event>): nat
    requires Run(c, es).Some?
    decreases |es|, 0
  {
    if es == [] then 0 else
    match Last(es)
    case Opened(_) => 0
    case SocketClosed(_, code) =>
      AttemptsFound(c, es[..|es| - 1], code)
      + if c.autoReconnect && !ToldToClose(c, es[..|es| - 1]) then 1 else 0
    case _ => Attempts(c, es[..|es| - 1])
  }

  function AttemptsFound(c: Conn, es: seq<Event>, code: nat): nat
    requires Run(c, es).Some?
    decreases |es|, 1
  {
    if code == 4001 then AtMost(Rejections(es), 5) else Attempts(c, es)
  }

  lemma {:induction false} AttemptsAreCounted(autoReconnect: bool, quickTimeoutMs: nat, es: seq<Event>)
    requires Run(Init(autoReconnect, quickTimeoutMs), es).Some?
    ensures var c0 := Init(autoReconnect, quickTimeoutMs); Run(c0, es).value.reconnectAttempt == Attempts(c0, es)
  {
    hide Inv, Enabled, Step, Run, ToldToClose, DialCount, Rejections, Attempts, AttemptsColumn;
    hide SocketsColumn, LabelColumn, ReasonColumn, HandshakeColumn;
    var c0 := Init(autoReconnect, quickTimeoutMs);
    if es == [] {
      NothingRun(c0);
      NothingCounted(c0);
    } else {
      var front := es[..|es| - 1];
      InitOk(autoReconnect, quickTimeoutMs);
      LastStep(c0, es);
      AttemptsAreCounted(autoReconnect, quickTimeoutMs, front);
      ClosingIffTold(autoReconnect, quickTimeoutMs, front);
      RunRejections(c0, front);
      AttemptsOneMore(c0, es);
    }
  }

  lemma NothingCounted(c: Conn)
    requires Run(c, []).Some?
    ensures Attempts(c, []) == 0
  {
  }

  lemma AttemptsOneMore(c0: Conn, es: seq<Event>)
    requires es != [] && Run(c0, es).Some? && Run(c0, es[..|es| - 1]).Some?
    requires var (b, front) := (Before(c0, es), es[..|es| - 1]);
             && AttemptsColumn(b, Last(es), Run(c0, es).value) && b.reconnectAttempt == Attempts(c0, front)
             && b.rejectionCount == Rejections(front) && b.autoReconnect == c0.autoReconnect
             && (b.isClosing <==> ToldToClose(c0, front))
    ensures Run(c0, es).value.reconnectAttempt == Attempts(c0, es)
  {
    hide Run, ToldToClose, Rejections;
    var front := es[..|es| - 1];
    match Last(es)
    case SocketClosed(_, code) => assert AttemptsFound(c0, front, code) == AttemptsAtClose(Before(c0, es), code);
    case _ =>
  }

  /** Any close of a reconnecting client that was not told to close arms one reconnect, the only
      timer left, after as many seconds as the attempts it finds call for: 1, 2, 4, 8, 16, then 30.
      Any other close leaves no timer at all. */
  lemma CloseBacksOff(autoReconnect: bool, quickTimeoutMs: nat, es: seq<Event>, s: nat, code: nat)
    requires Run(Init(autoReconnect, quickTimeoutMs), es).Some?
    requires Enabled(Run(Init(autoReconnect, quickTimeoutMs), es).value, SocketClosed(s, code))
    ensures var c0 := Init(autoReconnect, quickTimeoutMs);
            var c := Run(c0, es).value;
            var d := Step(c, SocketClosed(s, code));
            var delay := [1000, 2000, 4000, 8000, 16000, 30000][AtMost(AttemptsFound(c0, es, code), 5)];
            if autoReconnect && !ToldToClose(c0, es) then
              && d.reconnectTimeout.Some?
              && d.host.timers == map[d.reconnectTimeout.value := Timer(c.host.now + delay, Reconnect)]
            else d.reconnectTimeout == None && d.host.timers == map[]
  {
    hide Inv, Run, ToldToClose, DialCount, Rejections, Attempts, OnClosed;
    var c0 := Init(autoReconnect, quickTimeoutMs);
    InitOk(autoReconnect, quickTimeoutMs);
    RunOk(c0, es);
    ClosingIffTold(autoReconnect, quickTimeoutMs, es);
    AttemptsAreCounted(autoReconnect, quickTimeoutMs, es);
    RunRejections(c0, es);
    CloseLeaves(Run(c0, es).value, s, code);
  }

  lemma CloseLeaves(c: Conn, s: nat, code: nat)
    requires Inv(c) && s < |c.host.sockets|
    ensures var d := OnClosed(c, s, code);
            var delay := [1000, 2000, 4000, 8000, 16000, 30000][AtMost(AttemptsAtClose(c, code), 5)];
            if c.autoReconnect && !c.isClosing then
              && d.reconnectTimeout.Some?
              && d.host.timers == map[d.reconnectTimeout.value := Timer(c.host.now + delay, Reconnect)]
            else d.reconnectTimeout == None && d.host.timers == map[]
  {
    assert TimersOk(c) by { hide TimersOk; }
    hide Inv, TimersOk, OnClosed, ReconnectDelay, AttemptsAtClose;
    if c.autoReconnect && !c.isClosing {
      ClosedArms(c, s, code);
      ArmingIs(c, code);
    } else {
      ClosedQuietly(c, s, code);
    }
  }

  lemma ArmingIs(c: Conn, code: nat)
    ensures ClosedArming(c, code).delay == [1000, 2000, 4000, 8000, 16000, 30000][AtMost(AttemptsAtClose(c, code), 5)]
  {
  }

  lemma ClosedQuietly(c: Conn, s: nat, code: nat)
    requires TimersOk(c) && s < |c.host.sockets| && !(c.autoReconnect && !c.isClosing)
    ensures OnClosed(c, s, code).reconnectTimeout == None && OnClosed(c, s, code).host.timers == map[]
  {
    hide TimersOk, Classify, Cleanup, ReconnectDelay, ScheduleReconnect, Rejected;
    var c1 := c.(host := c.host.(sockets := c.host.sockets[s := Closed]));
    var c2 := Classify(c1, code);
    ClassifyFields(c1, code);
    FrameTimers(c, c2);
    CleanupTimers(c2);
    CleanupFields(c2);
  }

  /** The label, from the events alone: closed since the last close or `disconnect`, dialling since
      the last dial, connected since the last `open` handler that ran on, whatever its socket did. */
  function Label(c: Conn, es: seq<Event>): Phase
    requires Run(c, es).Some?
  {
    if es == [] then Disconnected else
    var e, b, front := Last(es), Before(c, es), es[..|es| - 1];
    if e.Disconnect? || e.SocketClosed? then Disconnected
    else if Dials(b, e) then (if Attempts(c, front) > 0 then Reconnecting else ConnectingPhase)
    else if Resumes(b, e) then Connected
    else Label(c, front)
  }

  /** Why the client last lost or was refused its connection, from the events alone. */
  function ReasonNow(c: Conn, es: seq<Event>): Reason
    requires Run(c, es).Some?
  {
    if es == [] then NeverConnected else
    var front := es[..|es| - 1];
    match Last(es)
    case Disconnect => ClosedNormally
    case SocketError(_, refused) => if refused then Refused else Failed
    case SocketClosed(_, code) => ReasonOfClose(code, Label(c, front) == Connected, ReasonNow(c, front))
    case _ => ReasonNow(c, front)
  }

  lemma {:induction false} LabelAndReasonAre(autoReconnect: bool, quickTimeoutMs: nat, es: seq<Event>)
    requires Run(Init(autoReconnect, quickTimeoutMs), es).Some?
    ensures var c0 := Init(autoReconnect, quickTimeoutMs);
            var c := Run(c0, es).value;
            c.currentState == Label(c0, es) && c.lastDisconnectReason == ReasonNow(c0, es)
  {
    hide Inv, Enabled, Step, Run, Attempts, Dials, Resumes, ReasonOfClose, Label, ReasonNow;
    hide SocketsColumn, LabelColumn, ReasonColumn, AttemptsColumn, HandshakeColumn;
    var c0 := Init(autoReconnect, quickTimeoutMs);
    if es == [] {
      NothingRun(c0);
      NothingSaid(c0);
    } else {
      var front := es[..|es| - 1];
      InitOk(autoReconnect, quickTimeoutMs);
      LastStep(c0, es);
      LabelAndReasonAre(autoReconnect, quickTimeoutMs, front);
      AttemptsAreCounted(autoReconnect, quickTimeoutMs, front);
      LabelOneMore(c0, es);
      ReasonOneMore(c0, es);
    }
  }

  lemma NothingSaid(c: Conn)
    requires Run(c, []).Some?
    ensures Label(c, []) == Disconnected && ReasonNow(c, []) == NeverConnected
  {
  }

  lemma LabelOneMore(c0: Conn, es: seq<Event>)
    requires es != [] && Run(c0, es).Some? && Run(c0, es[..|es| - 1]).Some?
    requires var b := Before(c0, es);
             && LabelColumn(b, Last(es), Run(c0, es).value) && b.reconnectAttempt == Attempts(c0, es[..|es| - 1])
             && b.currentState == Label(c0, es[..|es| - 1])
    ensures Run(c0, es).value.currentState == Label(c0, es)
  {
    hide Run, Attempts, Dials, Resumes;
  }

  lemma ReasonOneMore(c0: Conn, es: seq<Event>)
    requires es != [] && Run(c0, es).Some? && Run(c0, es[..|es| - 1]).Some?
    requires var (b, front) := (Before(c0, es), es[..|es| - 1]);
             && ReasonColumn(b, Last(es), Run(c0, es).value) && b.currentState == Label(c0, front)
             && b.lastDisconnectReason == ReasonNow(c0, front)
    ensures Run(c0, es).value.lastDisconnectReason == ReasonNow(c0, es)
  {
    hide Run, Label, ReasonOfClose;
  }

  /** A socket's state, from the events alone. */
  function SocketNow(c: Conn, es: seq<Event>, s: nat): ReadyState
    requires Run(c, es).Some?
  {
    if es == [] then Connecting else
    var e, b, front := Last(es), Before(c, es), es[..|es| - 1];
    var was := SocketNow(c, front, s);
    if e == Opened(s) then Open
    else if e.SocketClosed? && e.socket == s then Closed
    else if (e.Disconnect? || FiresTask(b, e, PongTimeout)) && b.ws == Some(s) && was != Closed then Closing
    else was
  }

  /** The current socket is closed by `disconnect` and by an unanswered ping, and by nothing else the
      client does. */
  lemma {:induction false} SocketsAre(autoReconnect: bool, quickTimeoutMs: nat, es: seq<Event>, s: nat)
    requires Run(Init(autoReconnect, quickTimeoutMs), es).Some?
    requires s < |Run(Init(autoReconnect, quickTimeoutMs), es).value.host.sockets|
    ensures var c0 := Init(autoReconnect, quickTimeoutMs);
            Run(c0, es).value.host.sockets[s] == SocketNow(c0, es, s)
  {
    hide Inv, Enabled, Step, Run, Dials, SocketsColumn, LabelColumn, ReasonColumn, AttemptsColumn, HandshakeColumn;
    var c0 := Init(autoReconnect, quickTimeoutMs);
    if es == [] {
      NothingRun(c0);
    } else {
      InitOk(autoReconnect, quickTimeoutMs);
      LastStep(c0, es);
      var b, e, front := Before(c0, es), Last(es), es[..|es| - 1];
      if s < |b.host.sockets| {
        SocketsAre(autoReconnect, quickTimeoutMs, front, s);
        OldSocket(b, e, Run(c0, es).value, s);
      } else {
        NotYetMade(autoReconnect, quickTimeoutMs, front, s);
        InvLinks(b);
        NoEventOfUnmade(b, e, s);
        NewSocket(b, e, Run(c0, es).value, s);
      }
    }
  }

  lemma NothingRun(c: Conn)
    ensures Run(c, []) == Some(c)
  {
  }

  lemma OldSocket(c: Conn, e: Event, d: Conn, s: nat)
    requires SocketsColumn(c, e, d) && s < |c.host.sockets|
    ensures s < |d.host.sockets| && d.host.sockets[s] == SocketMoves(c, e, s)
  {
    hide Dials;
  }

  lemma NewSocket(c: Conn, e: Event, d: Conn, s: nat)
    requires SocketsColumn(c, e, d) && |c.host.sockets| <= s < |d.host.sockets|
    ensures d.host.sockets[s] == Connecting
  {
    hide Dials;
  }

  lemma NoEventOfUnmade(c: Conn, e: Event, s: nat)
    requires Enabled(c, e) && s >= |c.host.sockets| && (c.ws.Some? ==> c.ws.value < |c.host.sockets|)
    ensures e != Opened(s) && !(e.SocketClosed? && e.socket == s) && c.ws != Some(s)
  {
  }

  lemma {:induction false} NotYetMade(autoReconnect: bool, quickTimeoutMs: nat, es: seq<Event>, s: nat)
    requires Run(Init(autoReconnect, quickTimeoutMs), es).Some?
    requires s >= |Run(Init(autoReconnect, quickTimeoutMs), es).value.host.sockets|
    ensures SocketNow(Init(autoReconnect, quickTimeoutMs), es, s) == Connecting
  {
    var c0 := Init(autoReconnect, quickTimeoutMs);
    if es != [] {
      InitOk(autoReconnect, quickTimeoutMs);
      LastStep(c0, es);
      InvLinks(Before(c0, es));
      NoEventOfUnmade(Before(c0, es), Last(es), s);
      hide Inv, Enabled, Step, Run, Dials, LabelColumn, ReasonColumn, AttemptsColumn, HandshakeColumn;
      NotYetMade(autoReconnect, quickTimeoutMs, es[..|es| - 1], s);
    }
  }

  /** What the last handshake said, from the events alone: nothing since a close or a `disconnect`. */
  function GreetingNow(c: Conn, es: seq<Event>): Option<HandshakeStatus>
    requires Run(c, es).Some?
  {
    if es == [] then None else
    var e, b := Last(es), Before(c, es);
    if e.Disconnect? || e.SocketClosed? then None
    else if e.Delivered? && Greets(b, e.message) then Some(HandshakeSuccess(e.message.result.value))
    else if GivesUpGreeting(b, e) then Some(HandshakeTimeout)
    else GreetingNow(c, es[..|es| - 1])
  }

  lemma {:induction false} GreetingIs(autoReconnect: bool, quickTimeoutMs: nat, es: seq<Event>)
    requires Run(Init(autoReconnect, quickTimeoutMs), es).Some?
    ensures var c0 := Init(autoReconnect, quickTimeoutMs); Run(c0, es).value.handshakeResult == GreetingNow(c0, es)
  {
    hide Inv, Enabled, Step, Run, Greets, GivesUpGreeting, SocketsColumn, LabelColumn, ReasonColumn, AttemptsColumn;
    if es == [] {
      NothingRun(Init(autoReconnect, quickTimeoutMs));
    } else {
      InitOk(autoReconnect, quickTimeoutMs);
      LastStep(Init(autoReconnect, quickTimeoutMs), es);
      GreetingIs(autoReconnect, quickTimeoutMs, es[..|es| - 1]);
    }
  }
}

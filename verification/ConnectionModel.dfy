/** The connection as a value: what each event handler of the Godot client does to its fields, to
    the timers it has armed, to the sockets it has opened and to the promises it has handed out. */
module ConnectionModel {
  import opened Options

  const HANDSHAKE_TIMEOUT_MS: nat := 5000
  const RECONNECT_DELAYS: seq<nat> := [1000, 2000, 4000, 8000, 16000, 30000]
  const PING_INTERVAL_MS: nat := 30000
  const PONG_TIMEOUT_MS: nat := 10000
  const MAX_TIMER_MS: nat := 0x7FFF_FFFF

  const CLOSE_CODE_ALREADY_CONNECTED: nat := 4001
  const CLOSE_CODE_STALE: nat := 4002
  const CLOSE_CODE_REPLACED: nat := 4003

  datatype ReadyState = Connecting | Open | Closing | Closed
  datatype Kind = Command | Handshake | Heartbeat
  datatype CloseCode =
    | ClosedByClient | ConnectionLost | ReplacedByNewClient | RejectedAnotherClient
    | StaleClosedByServer | ConnectionRefused | CloseUnknown
  datatype Reason =
    | NeverConnected | RejectedAnother | Replaced | Refused | Lost | ClosedNormally | Failed
  datatype Phase = Disconnected | ConnectingPhase | Reconnecting | Connected
  datatype HandshakeStatus = HandshakeSuccess(result: string) | HandshakeTimeout

  /** One call of a promise's `resolve` or `reject`, or a throw inside its executor. */
  datatype Outcome =
    | Resolved(result: Option<string>)
    | CommandFailed(code: string)
    | TimedOut
    | MalformedReply
    | ConnectionClosed(closeCode: CloseCode)
    | SendThrew
  datatype Settlement = Settlement(outcome: Outcome, at: nat)

  /** A request's promise, with every settlement attempted on it; only the first takes effect. It
      is `lost` once its resolver has thrown instead of settling it. */
  datatype Promise = Promise(kind: Kind, sentAt: nat, delay: nat, calls: seq<Settlement>, lost: bool)

  datatype Task = RequestTimeout(id: nat) | PingTick | PongTimeout | Reconnect
  datatype Timer = Timer(deadline: nat, task: Task)

  /** The Node process around the connection: a clock, the live timers, every socket ever created
      and every promise ever made (both named by position), and the ids of settled promises whose
      `await` continuation or `finally` callback is still queued. */
  datatype Host = Host(
    now: nat, nextTimer: nat, timers: map<nat, Timer>,
    sockets: seq<ReadyState>, promises: seq<Promise>, reactions: set<nat>)

  /** A delay the client armed a reconnect with; `rejection` counts the 4001 closes so far when
      the arming answers one, and is 0 otherwise. */
  datatype Arming = Arming(rejection: nat, delay: nat, at: nat)

  datatype Conn = Conn(
    host: Host,
    autoReconnect: bool,
    quickTimeoutMs: nat,
    ws: Option<nat>,
    pending: map<nat, nat>,
    reconnectAttempt: nat,
    reconnectTimeout: Option<nat>,
    pingInterval: Option<nat>,
    pongTimeout: Option<nat>,
    isClosing: bool,
    heartbeatPending: bool,
    handshakeResult: Option<HandshakeStatus>,
    pendingCloseCode: Option<CloseCode>,
    lastDisconnectReason: Reason,
    rejectionCount: nat,
    currentState: Phase,
    armings: seq<Arming>)

  /** A message as the handler tells it apart; a success may carry any result, and None is a result
      that is null or absent: the schema accepts both, and the fields of neither can be read. */
  datatype Message =
    | NotJson
    | Invalid(claimed: Option<nat>)
    | Success(id: nat, result: Option<string>)
    | Error(id: nat, code: string)

  datatype Event =
    | Connect
    | Disconnect
    | Send(timeoutMs: Option<nat>, serialises: bool)
    | Opened(socket: nat)
    | Delivered(socket: nat, message: Message)
    | Pong(socket: nat)
    | SocketClosed(socket: nat, code: nat)
    | SocketError(socket: nat, refused: bool)
    | Fired(timer: nat)
    | Reaction(id: nat)
    | Advance(ms: nat)

  // ---- Node ----

  /** `setTimeout` turns a delay outside 1 .. 2^31-1 into 1. */
  function TimerDelay(ms: nat): nat {
    if 1 <= ms <= MAX_TIMER_MS then ms else 1
  }

  function SetTimer(h: Host, delay: nat, task: Task): Host {
    h.(nextTimer := h.nextTimer + 1, timers := h.timers[h.nextTimer := Timer(h.now + delay, task)])
  }

  function ClearTimer(h: Host, t: Option<nat>): Host {
    if t.Some? then h.(timers := h.timers - {t.value}) else h
  }

  function Called(p: Promise, outcome: Outcome, at: nat): Promise {
    p.(calls := p.calls + [Settlement(outcome, at)])
  }

  function Settle(h: Host, id: nat, outcome: Outcome): Host
    requires id < |h.promises|
  {
    h.(promises := h.promises[id := Called(h.promises[id], outcome, h.now)],
       reactions := if h.promises[id].calls == [] then h.reactions + {id} else h.reactions)
  }

  /** `close` and `terminate` alike: the socket's close event is still to come. */
  function Shut(h: Host, s: nat): Host
    requires s < |h.sockets|
  {
    if h.sockets[s] == Closed then h else h.(sockets := h.sockets[s := Closing])
  }

  // ---- the connection ----

  function Init(autoReconnect: bool, quickTimeoutMs: nat): Conn {
    Conn(Host(0, 0, map[], [], [], {}), autoReconnect, quickTimeoutMs, None, map[], 0, None, None, None,
         false, false, None, None, NeverConnected, 0, Disconnected, [])
  }

  predicate SocketIs(c: Conn, state: ReadyState) {
    c.ws.Some? && c.ws.value < |c.host.sockets| && c.host.sockets[c.ws.value] == state
  }

  predicate IsConnected(c: Conn) {
    SocketIs(c, Open)
  }

  /** `this.ws!.send` throws on a missing socket and on one that is still connecting. */
  predicate CanSend(c: Conn) {
    c.ws.Some? && !SocketIs(c, Connecting)
  }

  function OnConnect(c: Conn): Conn {
    if IsConnected(c) then c else
    c.(isClosing := false,
       currentState := if c.reconnectAttempt > 0 then Reconnecting else ConnectingPhase,
       ws := Some(|c.host.sockets|),
       host := c.host.(sockets := c.host.sockets + [Connecting]))
  }

  /** What the executors of `sendCommand` and `performHandshake` share, up to the send. */
  function Issue(c: Conn, kind: Kind, timeoutMs: nat): Conn {
    var id := |c.host.promises|;
    var delay := TimerDelay(timeoutMs);
    var h := c.host.(promises := c.host.promises + [Promise(kind, c.host.now, delay, [], false)]);
    c.(host := SetTimer(h, delay, RequestTimeout(id)), pending := c.pending[id := h.nextTimer])
  }

  /** The whole executor: if serialising or sending throws, the promise is rejected, but its timer
      is armed and its request pending all the same. */
  function Dispatch(c: Conn, kind: Kind, timeoutMs: nat, lands: bool): Conn {
    var c1 := Issue(c, kind, timeoutMs);
    if lands then c1 else c1.(host := Settle(c1.host, |c.host.promises|, SendThrew))
  }

  /** `JSON.stringify` throws on parameters that hold a BigInt or a cycle. */
  function OnSend(c: Conn, timeoutMs: Option<nat>, serialises: bool): Conn {
    if !IsConnected(c) then c
    else Dispatch(c, Command, if timeoutMs.Some? then timeoutMs.value else c.quickTimeoutMs, serialises)
  }

  function PerformHandshake(c: Conn): Conn {
    Dispatch(c, Handshake, HANDSHAKE_TIMEOUT_MS, CanSend(c))
  }

  function ClearPong(c: Conn): Conn {
    c.(host := ClearTimer(c.host, c.pongTimeout), pongTimeout := None)
  }

  function StopPing(c: Conn): Conn {
    ClearPong(c.(host := ClearTimer(c.host, c.pingInterval), pingInterval := None))
  }

  function StartPing(c: Conn): Conn {
    var c1 := StopPing(c);
    c1.(host := SetTimer(c1.host, PING_INTERVAL_MS, PingTick), pingInterval := Some(c1.host.nextTimer))
  }

  function OnOpened(c: Conn, s: nat): Conn
    requires s < |c.host.sockets|
  {
    var c1 := c.(host := c.host.(sockets := c.host.sockets[s := Open]), reconnectAttempt := 0);
    PerformHandshake(StartPing(c1))
  }

  /** Takes a request out of the pending map with its timer, and settles it. */
  function Answer(c: Conn, id: nat, outcome: Outcome): Conn
    requires id in c.pending && id < |c.host.promises|
  {
    var h := ClearTimer(c.host, Some(c.pending[id]));
    c.(pending := c.pending - {id}, host := Settle(h, id, outcome))
  }

  /** A handshake's resolver reads fields of its result, which throws on null and on undefined: its
      request has left the pending map with its timer by then, and its promise is never settled. */
  function Lose(c: Conn, id: nat): Conn
    requires id in c.pending && id < |c.host.promises|
  {
    var h := ClearTimer(c.host, Some(c.pending[id]));
    c.(pending := c.pending - {id}, host := h.(promises := h.promises[id := h.promises[id].(lost := true)]))
  }

  function OnMessage(c: Conn, m: Message): Conn {
    match m
    case NotJson => c
    case Invalid(claimed) =>
      if claimed.Some? && claimed.value in c.pending && claimed.value < |c.host.promises|
      then Answer(c, claimed.value, MalformedReply)
      else c
    case Success(id, result) =>
      if id in c.pending && id < |c.host.promises| then
        if c.host.promises[id].kind != Handshake then Answer(c, id, Resolved(result))
        else if result == None then Lose(c, id)
        else Answer(c, id, Resolved(result)).(handshakeResult := Some(HandshakeSuccess(result.value)))
      else c
    case Error(id, code) =>
      if id in c.pending && id < |c.host.promises| then Answer(c, id, CommandFailed(code)) else c
  }

  /** Requests taken out of the map together: their timeouts disarmed, their promises rejected. */
  function Rejected(h: Host, pending: map<nat, nat>, code: CloseCode): Host {
    h.(timers := h.timers - pending.Values,
       promises := seq(|h.promises|, i requires 0 <= i < |h.promises| =>
         if i in pending then Called(h.promises[i], ConnectionClosed(code), h.now) else h.promises[i]),
       reactions := h.reactions + set i | i in pending && i < |h.promises| && h.promises[i].calls == [])
  }

  function CleanupCode(c: Conn): CloseCode {
    if c.pendingCloseCode.Some? then c.pendingCloseCode.value else CloseUnknown
  }

  /** Every in-flight request rejected with one typed code, and the armed reconnect disarmed. */
  function Abandon(c: Conn): Conn {
    c.(host := Rejected(ClearTimer(c.host, c.reconnectTimeout), c.pending, CleanupCode(c)),
       pending := map[], reconnectTimeout := None, handshakeResult := None, pendingCloseCode := None)
  }

  /** No timer of the connection survives. */
  function Cleanup(c: Conn): Conn {
    Abandon(StopPing(c))
  }

  function ReconnectDelay(attempt: nat): nat {
    RECONNECT_DELAYS[if attempt < |RECONNECT_DELAYS| then attempt else |RECONNECT_DELAYS| - 1]
  }

  function ScheduleReconnect(c: Conn, rejection: nat): Conn {
    if c.reconnectTimeout.Some? then c else
    var delay := ReconnectDelay(c.reconnectAttempt);
    c.(reconnectAttempt := c.reconnectAttempt + 1,
       reconnectTimeout := Some(c.host.nextTimer),
       host := SetTimer(c.host, delay, Reconnect),
       armings := c.armings + [Arming(rejection, delay, c.host.now)])
  }

  /** A close that turns this client away because another one is connected. */
  function NoteRejection(c: Conn): Conn {
    c.(lastDisconnectReason := RejectedAnother, pendingCloseCode := Some(RejectedAnotherClient),
       rejectionCount := c.rejectionCount + 1,
       reconnectAttempt := if c.rejectionCount < |RECONNECT_DELAYS| then c.rejectionCount else |RECONNECT_DELAYS| - 1)
  }

  /** Any other close: a reason and a code to reject with, if there is something to say. */
  function NoteLoss(c: Conn, code: nat, wasConnected: bool): Conn {
    if code == CLOSE_CODE_REPLACED then
      c.(lastDisconnectReason := Replaced, pendingCloseCode := Some(ReplacedByNewClient))
    else if code == CLOSE_CODE_STALE then
      c.(lastDisconnectReason := Lost, pendingCloseCode := Some(StaleClosedByServer))
    else if wasConnected then
      c.(lastDisconnectReason := Lost, pendingCloseCode := Some(ConnectionLost))
    else if c.lastDisconnectReason == NeverConnected then
      c.(lastDisconnectReason := Refused, pendingCloseCode := Some(ConnectionRefused))
    else c
  }

  /** The bookkeeping of the `close` handler before it cleans up. */
  function Classify(c: Conn, code: nat): Conn {
    var c1 := c.(currentState := Disconnected);
    if code == CLOSE_CODE_ALREADY_CONNECTED then NoteRejection(c1)
    else NoteLoss(c1, code, c.currentState == Connected)
  }

  function OnClosed(c: Conn, s: nat, code: nat): Conn
    requires s < |c.host.sockets|
  {
    var c1 := c.(host := c.host.(sockets := c.host.sockets[s := Closed]));
    var c2 := Cleanup(Classify(c1, code));
    if c2.autoReconnect && !c2.isClosing then
      ScheduleReconnect(c2, if code == CLOSE_CODE_ALREADY_CONNECTED then c2.rejectionCount else 0)
    else c2
  }

  function OnError(c: Conn, refused: bool): Conn {
    c.(lastDisconnectReason := if refused then Refused else Failed)
  }

  function OnDisconnect(c: Conn): Conn {
    var c1 := c.(isClosing := true, lastDisconnectReason := ClosedNormally,
                 pendingCloseCode := Some(ClosedByClient), currentState := Disconnected);
    HangUp(Cleanup(c1))
  }

  function HangUp(c: Conn): Conn {
    if c.ws.Some? && c.ws.value < |c.host.sockets|
    then c.(host := Shut(c.host, c.ws.value), ws := None)
    else c
  }

  function OnRequestTimeout(c: Conn, id: nat): Conn
    requires id < |c.host.promises|
  {
    var c1 := if c.host.promises[id].kind == Handshake then c.(handshakeResult := Some(HandshakeTimeout)) else c;
    c1.(pending := c.pending - {id}, host := Settle(c.host, id, TimedOut))
  }

  /** The interval callback. It overwrites `pongTimeout` without clearing what it held. */
  function OnPingTick(c: Conn): Conn {
    if !IsConnected(c) then c else
    var c1 := c.(host := SetTimer(c.host, PONG_TIMEOUT_MS, PongTimeout), pongTimeout := Some(c.host.nextTimer));
    if c1.heartbeatPending then c1
    else Issue(c1.(heartbeatPending := true), Heartbeat, c1.quickTimeoutMs)
  }

  function OnPongTimeout(c: Conn): Conn {
    if c.ws.Some? && c.ws.value < |c.host.sockets| then c.(host := Shut(c.host, c.ws.value)) else c
  }

  /** A timer's turn: an interval is re-armed, a one-shot timer is gone before its callback runs. */
  function OnFired(c: Conn, t: nat): Conn
    requires t in c.host.timers
  {
    var gone := c.(host := c.host.(timers := c.host.timers - {t}));
    match c.host.timers[t].task
    case RequestTimeout(id) => if id < |c.host.promises| then OnRequestTimeout(gone, id) else gone
    case PongTimeout => OnPongTimeout(gone)
    case Reconnect => OnConnect(gone.(reconnectTimeout := None))
    case PingTick =>
      OnPingTick(c.(host := c.host.(timers := c.host.timers[t := Timer(c.host.now + PING_INTERVAL_MS, PingTick)])))
  }

  /** What was waiting on a settled promise: the rest of the `open` handler after its `await`,
      which declares the connection up whatever happened meanwhile, or the heartbeat's `finally`. */
  function OnReaction(c: Conn, id: nat): Conn
    requires id < |c.host.promises|
  {
    var c1 := c.(host := c.host.(reactions := c.host.reactions - {id}));
    match c.host.promises[id].kind
    case Command => c1
    case Handshake => c1.(currentState := Connected)
    case Heartbeat => c1.(heartbeatPending := false)
  }

  // ---- runs ----

  predicate SocketIn(c: Conn, s: nat, states: set<ReadyState>) {
    s < |c.host.sockets| && c.host.sockets[s] in states
  }

  /** What the outside world can do next. A socket opens at most once and closes exactly once, and
      the clock never passes the deadline of a live timer. */
  predicate Enabled(c: Conn, e: Event) {
    match e
    case Connect => true
    case Disconnect => true
    case Send(_, _) => true
    case Opened(s) => SocketIn(c, s, {Connecting})
    case Delivered(s, _) => SocketIn(c, s, {Open, Closing})
    case Pong(s) => SocketIn(c, s, {Open, Closing})
    case SocketClosed(s, _) => SocketIn(c, s, {Connecting, Open, Closing})
    case SocketError(s, _) => SocketIn(c, s, {Connecting, Open, Closing})
    case Fired(t) => t in c.host.timers && c.host.timers[t].deadline == c.host.now
    case Reaction(id) => id in c.host.reactions && id < |c.host.promises|
    case Advance(ms) => forall t :: t in c.host.timers ==> c.host.now + ms <= c.host.timers[t].deadline
  }

  function Step(c: Conn, e: Event): Conn
    requires Enabled(c, e)
  {
    match e
    case Connect => OnConnect(c)
    case Disconnect => OnDisconnect(c)
    case Send(timeoutMs, serialises) => OnSend(c, timeoutMs, serialises)
    case Opened(s) => OnOpened(c, s)
    case Delivered(_, m) => OnMessage(c, m)
    case Pong(_) => ClearPong(c)
    case SocketClosed(s, code) => OnClosed(c, s, code)
    case SocketError(_, refused) => OnError(c, refused)
    case Fired(t) => OnFired(c, t)
    case Reaction(id) => OnReaction(c, id)
    case Advance(ms) => c.(host := c.host.(now := c.host.now + ms))
  }

  /** The state a run of events leads to, or None if some event was not possible. */
  function Run(c: Conn, es: seq<Event>): Option<Conn> {
    if es == [] then Some(c) else
    match Run(c, es[..|es| - 1])
    case None => None
    case Some(d) => if Enabled(d, es[|es| - 1]) then Some(Step(d, es[|es| - 1])) else None
  }
}

/** What every reachable state of the connection satisfies, and that each event keeps it. */
module ConnectionInvariants {
  import opened Options
  import opened ConnectionModel

  const MAX_RECONNECT_MS: nat := 30000
  const PONG_SLACK_MS: nat := PING_INTERVAL_MS - PONG_TIMEOUT_MS

  predicate TimersLive(h: Host) {
    forall t :: t in h.timers ==> t < h.nextTimer && h.now <= h.timers[t].deadline
  }

  /** `handle` names the only live timer with this task, due within `within` ms, or there is none. */
  predicate Sole(timers: map<nat, Timer>, now: nat, task: Task, handle: Option<nat>, within: nat) {
    && (forall t :: t in timers && timers[t].task == task ==> handle == Some(t))
    && (handle.Some? ==> handle.value in timers && timers[handle.value].task == task
                         && timers[handle.value].deadline <= now + within)
  }

  /** At most one pong timer is live, the one in `pongTimeout`, and it runs out long before the
      next tick of the only ping interval. The handle may outlive the timer it names. */
  predicate PongSole(c: Conn) {
    && (forall t :: t in c.host.timers && c.host.timers[t].task == PongTimeout ==>
          c.pongTimeout == Some(t) && c.pingInterval.Some? && c.pingInterval.value in c.host.timers
          && c.host.timers[t].deadline + PONG_SLACK_MS <= c.host.timers[c.pingInterval.value].deadline)
    && (c.pongTimeout.Some? ==>
          c.pongTimeout.value < c.host.nextTimer
          && (c.pongTimeout.value in c.host.timers ==> c.host.timers[c.pongTimeout.value].task == PongTimeout))
  }

  /** A request is in the pending map exactly while its own timeout is armed, at its own deadline. */
  predicate RequestTimers(c: Conn) {
    && (forall t :: t in c.host.timers && c.host.timers[t].task.RequestTimeout? ==>
          c.host.timers[t].task.id in c.pending && c.pending[c.host.timers[t].task.id] == t)
    && (forall i :: i in c.pending ==>
          i < |c.host.promises| && c.pending[i] in c.host.timers
          && c.host.timers[c.pending[i]]
             == Timer(c.host.promises[i].sentAt + c.host.promises[i].delay, RequestTimeout(i)))
  }

  predicate TimersOk(c: Conn) {
    && TimersLive(c.host)
    && Sole(c.host.timers, c.host.now, Reconnect, c.reconnectTimeout, MAX_RECONNECT_MS)
    && Sole(c.host.timers, c.host.now, PingTick, c.pingInterval, PING_INTERVAL_MS)
    && PongSole(c)
    && RequestTimers(c)
  }

  /** Each attempt to settle a promise falls between its sending and its deadline; a timeout
      falls exactly on the deadline. */
  predicate CallsOk(p: Promise, now: nat) {
    && p.sentAt <= now && p.delay >= 1
    && forall k :: 0 <= k < |p.calls| ==>
         && p.sentAt <= p.calls[k].at <= p.sentAt + p.delay && p.calls[k].at <= now
         && (p.calls[k].outcome == TimedOut ==> p.calls[k].at == p.sentAt + p.delay)
  }

  /** Settled at most once, and in the pending map exactly while unsettled. */
  predicate SettledOnce(c: Conn, i: nat)
    requires i < |c.host.promises|
  {
    |c.host.promises[i].calls| <= 1 && (i in c.pending <==> c.host.promises[i].calls == [])
  }

  /** The executor threw after it had entered the request in the pending map. */
  predicate Threw(p: Promise) {
    p.calls != [] && p.calls[0].outcome == SendThrew
  }

  /** A request that went out is settled as it leaves the pending map, unless it was lost there; one
      whose executor threw is settled once more then. No heartbeat throws, and only a handshake is
      lost. */
  predicate CountOk(c: Conn, i: nat)
    requires i < |c.host.promises|
  {
    var p := c.host.promises[i];
    && (p.lost ==> p.kind == Handshake && i !in c.pending)
    && (Threw(p) ==> p.kind != Heartbeat)
    && |p.calls| == (if Threw(p) then 1 else 0) + (if i in c.pending || p.lost then 0 else 1)
  }

  predicate PromisesOk(c: Conn) {
    && (forall i {:trigger c.host.promises[i]} :: 0 <= i < |c.host.promises| ==>
          CallsOk(c.host.promises[i], c.host.now) && CountOk(c, i))
    && (forall i :: i in c.host.reactions ==> i < |c.host.promises| && c.host.promises[i].calls != [])
  }

  /** Heartbeats sent and not yet seen through: still in flight, or settled with `finally` queued. */
  function HeartbeatsOut(c: Conn): set<nat> {
    set i | i in c.pending.Keys + c.host.reactions && i < |c.host.promises| && c.host.promises[i].kind == Heartbeat
  }

  predicate HeartbeatOk(c: Conn) {
    && (forall i, j :: i in HeartbeatsOut(c) && j in HeartbeatsOut(c) ==> i == j)
    && (c.heartbeatPending <==> HeartbeatsOut(c) != {})
  }

  predicate Alive(c: Conn) {
    c.autoReconnect && !c.isClosing && c.host.sockets != [] ==>
      c.reconnectTimeout.Some? || exists s :: 0 <= s < |c.host.sockets| && c.host.sockets[s] != Closed
  }

  predicate BackoffOk(c: Conn) {
    && (forall k :: 0 <= k < |c.armings| && c.armings[k].rejection > 0 ==>
          c.armings[k].rejection <= c.rejectionCount
          && c.armings[k].delay == ReconnectDelay(c.armings[k].rejection - 1))
    && (forall j, k :: 0 <= j < k < |c.armings| && c.armings[j].rejection > 0 && c.armings[k].rejection > 0 ==>
          c.armings[j].rejection < c.armings[k].rejection)
  }

  predicate FieldsOk(c: Conn) {
    (c.ws.Some? ==> c.ws.value < |c.host.sockets|) && c.pendingCloseCode == None && Alive(c) && BackoffOk(c)
  }

  predicate Inv(c: Conn) {
    TimersOk(c) && PromisesOk(c) && HeartbeatOk(c) && FieldsOk(c)
  }

  lemma InitOk(autoReconnect: bool, quickTimeoutMs: nat)
    ensures Inv(Init(autoReconnect, quickTimeoutMs))
  {
  }

  // ---- timers ----

  /** The timer invariants look at nothing but the clock, the timers, their handles, the pending
      map, and when and for how long each promise was sent. */
  lemma FrameTimers(c: Conn, d: Conn)
    requires TimersOk(c)
    requires c.host.(sockets := [], promises := [], reactions := {})
          == d.host.(sockets := [], promises := [], reactions := {})
    requires (c.pending, c.pingInterval, c.pongTimeout, c.reconnectTimeout)
          == (d.pending, d.pingInterval, d.pongTimeout, d.reconnectTimeout)
    requires |c.host.promises| <= |d.host.promises|
    requires forall i {:trigger d.host.promises[i]} :: 0 <= i < |c.host.promises| ==>
               && d.host.promises[i].sentAt == c.host.promises[i].sentAt
               && d.host.promises[i].delay == c.host.promises[i].delay
    ensures TimersOk(d)
  {
    assert TimersLive(d.host) && PongSole(d) && RequestTimers(d);
  }

  function Without(h: Host, t: nat): Host {
    h.(timers := h.timers - {t})
  }

  function Forget(handle: Option<nat>, t: nat): Option<nat> {
    if handle == Some(t) then None else handle
  }

  lemma DropSole(timers: map<nat, Timer>, now: nat, t: nat, task: Task, handle: Option<nat>, within: nat)
    requires Sole(timers, now, task, handle, within)
    ensures Sole(timers - {t}, now, task, Forget(handle, t), within)
  {
  }

  lemma DropRequests(c: Conn, d: Conn, t: nat)
    requires RequestTimers(c) && d.host.timers == Without(c.host, t).timers && d.host.promises == c.host.promises
    requires if t in c.host.timers && c.host.timers[t].task.RequestTimeout?
             then d.pending == c.pending - {c.host.timers[t].task.id} else d.pending == c.pending
    ensures RequestTimers(d)
  {
  }

  lemma DropPong(c: Conn, d: Conn, t: nat)
    requires PongSole(c) && d.host == Without(c.host, t) && d.pingInterval == Forget(c.pingInterval, t)
    requires d.pongTimeout == c.pongTimeout || (d.pongTimeout == None && c.pongTimeout == Some(t))
    requires c.pingInterval == Some(t) ==>
               forall p :: p in c.host.timers ==> c.host.timers[p].task != PongTimeout
    ensures PongSole(d)
  {
  }

  /** A timer leaves together with whatever named it. */
  lemma DropTimer(c: Conn, d: Conn, t: nat)
    requires TimersOk(c) && d.host == Without(c.host, t)
    requires d.pingInterval == Forget(c.pingInterval, t) && d.reconnectTimeout == Forget(c.reconnectTimeout, t)
    requires d.pongTimeout == c.pongTimeout || (d.pongTimeout == None && c.pongTimeout == Some(t))
    requires c.pingInterval == Some(t) ==>
               forall p :: p in c.host.timers ==> c.host.timers[p].task != PongTimeout
    requires if t in c.host.timers && c.host.timers[t].task.RequestTimeout?
             then d.pending == c.pending - {c.host.timers[t].task.id} else d.pending == c.pending
    ensures TimersOk(d)
  {
    assert TimersLive(d.host);
    hide TimersLive, Sole, PongSole, RequestTimers;
    DropSole(c.host.timers, c.host.now, t, Reconnect, c.reconnectTimeout, MAX_RECONNECT_MS);
    DropSole(c.host.timers, c.host.now, t, PingTick, c.pingInterval, PING_INTERVAL_MS);
    DropRequests(c, d, t);
    DropPong(c, d, t);
  }

  lemma AddSole(timers: map<nat, Timer>, now: nat, t: nat, timer: Timer, task: Task, handle: Option<nat>, within: nat)
    requires t !in timers && Sole(timers, now, task, handle, within) && timer.task != task
    ensures Sole(timers[t := timer], now, task, handle, within)
  {
  }

  lemma AddLive(h: Host, delay: nat, task: Task)
    requires TimersLive(h)
    ensures TimersLive(SetTimer(h, delay, task)) && h.nextTimer !in h.timers
  {
  }

  /** Arming or re-arming a timer that is no request's leaves the requests' timers alone. */
  lemma OtherTimer(c: Conn, d: Conn, t: nat)
    requires RequestTimers(c) && d.host.promises == c.host.promises && d.pending == c.pending
    requires t in d.host.timers && d.host.timers == c.host.timers[t := d.host.timers[t]]
    requires !d.host.timers[t].task.RequestTimeout? && (t in c.host.timers ==> !c.host.timers[t].task.RequestTimeout?)
    ensures RequestTimers(d)
  {
  }

  /** A request issued: one more promise, pending, and one more timer; nothing else. */
  predicate Issued(c: Conn, d: Conn, p: Promise) {
    var (g, h, id, t) := (c.host, d.host, |c.host.promises|, c.host.nextTimer);
    && d == c.(host := h, pending := c.pending[id := t])
    && h == g.(promises := h.promises, timers := h.timers, nextTimer := t + 1)
    && h.promises == g.promises + [p] && p.sentAt == g.now
    && h.timers == g.timers[t := Timer(g.now + p.delay, RequestTimeout(id))]
  }

  lemma IssueIs(c: Conn, kind: Kind, timeoutMs: nat)
    ensures Issued(c, Issue(c, kind, timeoutMs), Promise(kind, c.host.now, TimerDelay(timeoutMs), [], false))
  {
    hide TimerDelay;
  }

  lemma IssuedLive(c: Conn, d: Conn, p: Promise)
    requires TimersLive(c.host) && Issued(c, d, p)
    ensures TimersLive(d.host) && c.host.nextTimer !in c.host.timers
  {
  }

  lemma IssuedRequests(c: Conn, d: Conn, p: Promise)
    requires RequestTimers(c) && c.host.nextTimer !in c.host.timers && Issued(c, d, p)
    ensures RequestTimers(d)
  {
    forall i | i in d.pending
      ensures && i < |d.host.promises| && d.pending[i] in d.host.timers
              && d.host.timers[d.pending[i]]
                 == Timer(d.host.promises[i].sentAt + d.host.promises[i].delay, RequestTimeout(i))
    {
      if i != |c.host.promises| { assert i in c.pending && d.host.promises[i] == c.host.promises[i]; }
    }
  }

  lemma IssuedPong(c: Conn, d: Conn, p: Promise)
    requires PongSole(c) && c.host.nextTimer !in c.host.timers && Issued(c, d, p)
    ensures PongSole(d)
  {
  }

  lemma IssuedTimers(c: Conn, d: Conn, p: Promise)
    requires TimersOk(c) && Issued(c, d, p)
    ensures TimersOk(d)
  {
    hide RequestTimers, PongSole, Sole, TimersLive;
    IssuedLive(c, d, p);
    IssuedRequests(c, d, p);
    IssuedPong(c, d, p);
    var (g, timer) := (c.host, Timer(c.host.now + p.delay, RequestTimeout(|c.host.promises|)));
    AddSole(g.timers, g.now, g.nextTimer, timer, Reconnect, c.reconnectTimeout, MAX_RECONNECT_MS);
    AddSole(g.timers, g.now, g.nextTimer, timer, PingTick, c.pingInterval, PING_INTERVAL_MS);
  }

  lemma IssueTimers(c: Conn, kind: Kind, timeoutMs: nat)
    requires TimersOk(c)
    ensures TimersOk(Issue(c, kind, timeoutMs))
  {
    hide TimersOk, Issue, Issued, TimerDelay;
    IssueIs(c, kind, timeoutMs);
    IssuedTimers(c, Issue(c, kind, timeoutMs), Promise(kind, c.host.now, TimerDelay(timeoutMs), [], false));
  }

  lemma DispatchTimers(c: Conn, kind: Kind, timeoutMs: nat, lands: bool)
    requires TimersOk(c)
    ensures TimersOk(Dispatch(c, kind, timeoutMs, lands))
  {
    hide TimersOk, Issue;
    IssueTimers(c, kind, timeoutMs);
    if !lands {
      NewPromise(c, kind, timeoutMs);
      FrameTimers(Issue(c, kind, timeoutMs), Dispatch(c, kind, timeoutMs, lands));
    }
  }

  lemma NewPromise(c: Conn, kind: Kind, timeoutMs: nat)
    ensures var d, id := Issue(c, kind, timeoutMs), |c.host.promises|;
            && d.host.promises == c.host.promises + [Promise(kind, c.host.now, TimerDelay(timeoutMs), [], false)]
            && id in d.pending
  {
    IssueIs(c, kind, timeoutMs);
    hide Issue, TimerDelay;
  }

  lemma LoseTimers(c: Conn, id: nat)
    requires TimersOk(c) && id in c.pending && id < |c.host.promises|
    ensures TimersOk(Lose(c, id))
  {
    var d := c.(pending := c.pending - {id}, host := Without(c.host, c.pending[id]));
    DropTimer(c, d, c.pending[id]);
    hide TimersOk;
    FrameTimers(d, Lose(c, id));
  }

  lemma AnswerTimers(c: Conn, id: nat, outcome: Outcome)
    requires TimersOk(c) && id in c.pending && id < |c.host.promises|
    ensures TimersOk(Answer(c, id, outcome))
  {
    var d := c.(pending := c.pending - {id}, host := Without(c.host, c.pending[id]));
    DropTimer(c, d, c.pending[id]);
    hide TimersOk;
    FrameTimers(d, Answer(c, id, outcome));
  }

  lemma ClearPongTimers(c: Conn)
    requires TimersOk(c)
    ensures TimersOk(ClearPong(c))
    ensures forall p :: p in ClearPong(c).host.timers ==> ClearPong(c).host.timers[p].task != PongTimeout
  {
    var d := ClearPong(c);
    assert forall p :: p in d.host.timers ==> d.host.timers[p].task != PongTimeout;
    if c.pongTimeout.Some? {
      var t := c.pongTimeout.value;
      assert c.pingInterval != Some(t) && c.reconnectTimeout != Some(t);
      assert t in c.host.timers ==> c.host.timers[t].task == PongTimeout;
      hide TimersOk;
      DropTimer(c, d, t);
    } else {
      assert d == c;
    }
  }

  lemma StopPingTimers(c: Conn)
    requires TimersOk(c)
    ensures TimersOk(StopPing(c)) && StopPing(c).pingInterval == None
    ensures forall t :: t in StopPing(c).host.timers ==> StopPing(c).host.timers[t].task !in {PingTick, PongTimeout}
  {
    ClearPongTimers(c);
    StopPingIs(c);
    hide TimersOk, ClearPong, StopPing;
    if c.pingInterval.Some? { DropPing(ClearPong(c)); } else { OnlyPing(ClearPong(c)); }
  }

  lemma StopPingIs(c: Conn)
    ensures var c1 := ClearPong(c);
            && c1.pingInterval == c.pingInterval
            && StopPing(c) == c1.(host := ClearTimer(c1.host, c1.pingInterval), pingInterval := None)
  {
  }

  lemma DropPing(c: Conn)
    requires TimersOk(c) && c.pingInterval.Some?
    requires forall t :: t in c.host.timers ==> c.host.timers[t].task != PongTimeout
    ensures var d := c.(host := ClearTimer(c.host, c.pingInterval), pingInterval := None);
            TimersOk(d) && forall t :: t in d.host.timers ==> d.host.timers[t].task !in {PingTick, PongTimeout}
  {
    var t := c.pingInterval.value;
    OnlyPing(c);
    assert c.host.timers[t].task == PingTick && c.reconnectTimeout != Some(t);
    hide TimersOk;
    DropTimer(c, c.(host := Without(c.host, t), pingInterval := None), t);
  }

  lemma OnlyPing(c: Conn)
    requires TimersOk(c)
    ensures forall t :: t in c.host.timers && c.host.timers[t].task == PingTick ==> c.pingInterval == Some(t)
    ensures c.pingInterval.Some? ==> c.pingInterval.value in c.host.timers
  {
  }

  lemma CleanupTimers(c: Conn)
    requires TimersOk(c)
    ensures TimersOk(Cleanup(c)) && Cleanup(c).host.timers == map[]
  {
    var d := Cleanup(c);
    forall t | t in c.host.timers ensures t !in d.host.timers {
      if c.host.timers[t].task.RequestTimeout? {
        assert c.pending[c.host.timers[t].task.id] == t;
        assert t in c.pending.Values;
      }
    }
  }

  function Rearmed(c: Conn, t: nat): Conn {
    c.(host := c.host.(timers := c.host.timers[t := Timer(c.host.now + PING_INTERVAL_MS, PingTick)]))
  }

  function AwaitPong(c: Conn): Conn {
    c.(host := SetTimer(c.host, PONG_TIMEOUT_MS, PongTimeout), pongTimeout := Some(c.host.nextTimer))
  }

  /** Overwriting the pong handle loses nothing: by the next tick its timer is long gone. */
  lemma NoPongTimerAtTick(c: Conn, t: nat)
    requires TimersOk(c) && Enabled(c, Fired(t)) && c.host.timers[t].task == PingTick
    ensures forall p :: p in c.host.timers ==> c.host.timers[p].task != PongTimeout
  {
    assert c.pingInterval == Some(t);
  }

  lemma RearmedTimers(c: Conn, t: nat)
    requires TimersOk(c) && t in c.host.timers && c.host.timers[t].task == PingTick
    requires forall p :: p in c.host.timers ==> c.host.timers[p].task != PongTimeout
    ensures TimersOk(Rearmed(c, t)) && Rearmed(c, t).pingInterval == Some(t)
  {
    var d := Rearmed(c, t);
    OtherTimer(c, d, t);
    assert c.pingInterval == Some(t) by { hide TimersLive, PongSole, RequestTimers; }
    assert PongSole(d) by { hide TimersLive, Sole, RequestTimers; }
    assert TimersLive(d.host) by { hide Sole, PongSole, RequestTimers; }
    hide RequestTimers, PongSole, TimersLive;
    var timer := Timer(c.host.now + PING_INTERVAL_MS, PingTick);
    RearmedSole(c.host.timers, c.host.now, t, timer, PingTick, c.pingInterval, PING_INTERVAL_MS);
    RearmedSole(c.host.timers, c.host.now, t, timer, Reconnect, c.reconnectTimeout, MAX_RECONNECT_MS);
    hide Sole;
  }

  lemma RearmedSole(timers: map<nat, Timer>, now: nat, t: nat, timer: Timer, task: Task, handle: Option<nat>,
                    within: nat)
    requires Sole(timers, now, task, handle, within) && t in timers && timers[t].task == timer.task
    requires timer.task == task ==> timer.deadline <= now + within
    ensures Sole(timers[t := timer], now, task, handle, within)
  {
  }

  lemma AwaitPongTimers(c: Conn, t: nat)
    requires TimersOk(c) && c.pingInterval == Some(t)
    requires t in c.host.timers && c.host.timers[t].deadline == c.host.now + PING_INTERVAL_MS
    requires forall p :: p in c.host.timers ==> c.host.timers[p].task != PongTimeout
    ensures TimersOk(AwaitPong(c))
  {
    var d := AwaitPong(c);
    AddLive(c.host, PONG_TIMEOUT_MS, PongTimeout);
    OtherTimer(c, d, c.host.nextTimer);
    assert PongSole(d);
    hide RequestTimers, PongSole;
  }

  lemma TickTimers(c: Conn, t: nat)
    requires TimersOk(c) && Enabled(c, Fired(t)) && c.host.timers[t].task == PingTick
    ensures TimersOk(OnFired(c, t))
  {
    NoPongTimerAtTick(c, t);
    RearmedTimers(c, t);
    hide TimersOk;
    var c1 := Rearmed(c, t);
    if IsConnected(c1) {
      AwaitPongTimers(c1, t);
      var c2 := AwaitPong(c1);
      var c3 := c2.(heartbeatPending := true);
      FrameTimers(c2, c3);
      IssueTimers(c3, Heartbeat, c3.quickTimeoutMs);
    }
  }

  lemma TimeoutTimers(c: Conn, t: nat)
    requires TimersOk(c) && t in c.host.timers && c.host.timers[t].task.RequestTimeout?
    ensures TimersOk(OnFired(c, t))
  {
    var id := c.host.timers[t].task.id;
    assert c.pending[id] == t;
    AnswerTimers(c, id, TimedOut);
    hide TimersOk;
    FrameTimers(Answer(c, id, TimedOut), OnFired(c, t));
  }

  lemma PongFiredTimers(c: Conn, t: nat)
    requires TimersOk(c) && t in c.host.timers && c.host.timers[t].task == PongTimeout
    ensures TimersOk(OnFired(c, t))
  {
    assert c.pingInterval != Some(t) && c.reconnectTimeout != Some(t);
    var gone := c.(host := Without(c.host, t));
    hide TimersOk;
    DropTimer(c, gone, t);
    FrameTimers(gone, OnPongTimeout(gone));
  }

  lemma ReconnectFiredTimers(c: Conn, t: nat)
    requires TimersOk(c) && t in c.host.timers && c.host.timers[t].task == Reconnect
    ensures TimersOk(OnFired(c, t))
  {
    assert c.pingInterval != Some(t) && c.reconnectTimeout == Some(t);
    var gone := c.(host := Without(c.host, t), reconnectTimeout := None);
    hide TimersOk;
    DropTimer(c, gone, t);
    FrameTimers(gone, OnConnect(gone));
  }

  lemma FiredTimers(c: Conn, t: nat)
    requires TimersOk(c) && Enabled(c, Fired(t))
    ensures TimersOk(OnFired(c, t))
  {
    hide TimersOk, OnFired;
    match c.host.timers[t].task
    case PingTick => TickTimers(c, t);
    case RequestTimeout(id) => TimeoutTimers(c, t);
    case PongTimeout => PongFiredTimers(c, t);
    case Reconnect => ReconnectFiredTimers(c, t);
  }

  lemma ArmPingTimers(c: Conn, d: Conn)
    requires TimersOk(c) && c.pingInterval == None
    requires forall t :: t in c.host.timers ==> c.host.timers[t].task !in {PingTick, PongTimeout}
    requires d == c.(host := SetTimer(c.host, PING_INTERVAL_MS, PingTick), pingInterval := Some(c.host.nextTimer))
    ensures TimersOk(d)
  {
    var (h, t) := (c.host, c.host.nextTimer);
    AddLive(h, PING_INTERVAL_MS, PingTick);
    OtherTimer(c, d, t);
    assert PongSole(d);
    hide RequestTimers, PongSole, TimersLive;
    var timer := Timer(h.now + PING_INTERVAL_MS, PingTick);
    AddSole(h.timers, h.now, t, timer, Reconnect, c.reconnectTimeout, MAX_RECONNECT_MS);
  }

  lemma StartPingTimers(c: Conn)
    requires TimersOk(c)
    ensures TimersOk(StartPing(c))
  {
    StopPingTimers(c);
    hide StopPing, TimersOk;
    ArmPingTimers(StopPing(c), StartPing(c));
  }

  lemma OpenedTimers(c: Conn, s: nat)
    requires TimersOk(c) && s < |c.host.sockets|
    ensures TimersOk(OnOpened(c, s))
  {
    hide TimersOk;
    var c1 := c.(host := c.host.(sockets := c.host.sockets[s := Open]), reconnectAttempt := 0);
    FrameTimers(c, c1);
    StartPingTimers(c1);
    var c2 := StartPing(c1);
    DispatchTimers(c2, Handshake, HANDSHAKE_TIMEOUT_MS, CanSend(c2));
  }

  function Addressee(m: Message): Option<nat> {
    match m
    case NotJson => None
    case Invalid(claimed) => claimed
    case Success(id, _) => Some(id)
    case Error(id, _) => Some(id)
  }

  function Verdict(m: Message): Outcome {
    match m
    case Success(_, result) => Resolved(result)
    case Error(_, code) => CommandFailed(code)
    case _ => MalformedReply
  }

  predicate Answered(c: Conn, m: Message) {
    Addressee(m).Some? && Addressee(m).value in c.pending
  }

  /** The message makes a handshake's resolver throw: a success with a null result. */
  predicate ResolverThrows(c: Conn, m: Message) {
    m.Success? && m.result == None && m.id in c.pending && m.id < |c.host.promises|
    && c.host.promises[m.id].kind == Handshake
  }

  /** A message for a request in flight answers it, except that a null success loses a handshake;
      any other message changes nothing. */
  lemma MessageIsAnswer(c: Conn, m: Message)
    requires forall i :: i in c.pending ==> i < |c.host.promises|
    ensures var d := OnMessage(c, m);
            if ResolverThrows(c, m) then d == Lose(c, m.id)
            else if Answered(c, m)
            then d == Answer(c, Addressee(m).value, Verdict(m)).(handshakeResult := d.handshakeResult)
            else d == c
  {
    hide Answer, Lose;
  }

  lemma MessageTimers(c: Conn, m: Message)
    requires TimersOk(c)
    ensures TimersOk(OnMessage(c, m))
  {
    assert forall i :: i in c.pending ==> i < |c.host.promises|;
    MessageIsAnswer(c, m);
    hide TimersOk, Answer, Lose, OnMessage;
    if ResolverThrows(c, m) {
      LoseTimers(c, m.id);
    } else if Answered(c, m) {
      var answer := Answer(c, Addressee(m).value, Verdict(m));
      AnswerTimers(c, Addressee(m).value, Verdict(m));
      FrameTimers(answer, OnMessage(c, m));
    }
  }

  lemma ScheduleTimers(c: Conn, rejection: nat)
    requires TimersOk(c) && c.host.timers == map[]
    ensures TimersOk(ScheduleReconnect(c, rejection))
  {
  }

  lemma ClosedTimers(c: Conn, s: nat, code: nat)
    requires TimersOk(c) && s < |c.host.sockets|
    ensures TimersOk(OnClosed(c, s, code))
  {
    hide TimersOk, Cleanup, ScheduleReconnect, Classify, ReconnectDelay;
    var c0 := c.(host := c.host.(sockets := c.host.sockets[s := Closed]));
    ClassifyFields(c0, code);
    var c1 := Classify(c0, code);
    FrameTimers(c, c1);
    CleanupTimers(c1);
    ScheduleTimers(Cleanup(c1), if code == CLOSE_CODE_ALREADY_CONNECTED then Cleanup(c1).rejectionCount else 0);
  }

  lemma DisconnectTimers(c: Conn)
    requires TimersOk(c)
    ensures TimersOk(OnDisconnect(c))
  {
    hide TimersOk, Cleanup;
    var c1 := c.(isClosing := true, lastDisconnectReason := ClosedNormally,
                 pendingCloseCode := Some(ClosedByClient), currentState := Disconnected);
    FrameTimers(c, c1);
    CleanupTimers(c1);
    FrameTimers(Cleanup(c1), OnDisconnect(c));
  }

  lemma AdvanceTimers(c: Conn, ms: nat)
    requires TimersOk(c) && Enabled(c, Advance(ms))
    ensures TimersOk(Step(c, Advance(ms)))
  {
    var d := Step(c, Advance(ms));
    var (timers, now, later) := (c.host.timers, c.host.now, c.host.now + ms);
    assert TimersLive(d.host) by { hide Sole, PongSole, RequestTimers; }
    assert PongSole(d) && RequestTimers(d) by { hide TimersLive, Sole; }
    hide TimersLive, Sole, PongSole, RequestTimers;
    LaterSole(timers, now, later, Reconnect, c.reconnectTimeout, MAX_RECONNECT_MS);
    LaterSole(timers, now, later, PingTick, c.pingInterval, PING_INTERVAL_MS);
  }

  lemma LaterSole(timers: map<nat, Timer>, now: nat, later: nat, task: Task, handle: Option<nat>, within: nat)
    requires Sole(timers, now, task, handle, within) && now <= later
    ensures Sole(timers, later, task, handle, within)
  {
  }

  lemma ConnectTimers(c: Conn)
    requires TimersOk(c)
    ensures TimersOk(OnConnect(c))
  {
    hide TimersOk;
    FrameTimers(c, OnConnect(c));
  }

  lemma SendTimers(c: Conn, timeoutMs: Option<nat>, serialises: bool)
    requires TimersOk(c)
    ensures TimersOk(OnSend(c, timeoutMs, serialises))
  {
    hide TimersOk, Dispatch;
    DispatchTimers(c, Command, if timeoutMs.Some? then timeoutMs.value else c.quickTimeoutMs, serialises);
  }

  lemma ErrorTimers(c: Conn, refused: bool)
    requires TimersOk(c)
    ensures TimersOk(OnError(c, refused))
  {
    hide TimersOk;
    FrameTimers(c, OnError(c, refused));
  }

  lemma ReactionTimers(c: Conn, id: nat)
    requires TimersOk(c) && id < |c.host.promises|
    ensures TimersOk(OnReaction(c, id))
  {
    hide TimersOk;
    FrameTimers(c, OnReaction(c, id));
  }

  lemma StepTimers(c: Conn, e: Event)
    requires TimersOk(c) && Enabled(c, e)
    ensures TimersOk(Step(c, e))
  {
    hide TimersOk, OnConnect, OnDisconnect, OnSend, OnOpened, OnMessage, OnClosed, OnFired;
    hide ClearPong, OnError, OnReaction;
    match e
    case Connect => ConnectTimers(c);
    case Disconnect => DisconnectTimers(c);
    case Send(timeoutMs, serialises) => SendTimers(c, timeoutMs, serialises);
    case Opened(s) => OpenedTimers(c, s);
    case Delivered(_, m) => MessageTimers(c, m);
    case Pong(_) => ClearPongTimers(c);
    case SocketClosed(s, code) => ClosedTimers(c, s, code);
    case SocketError(_, refused) => ErrorTimers(c, refused);
    case Fired(t) => FiredTimers(c, t);
    case Reaction(id) => ReactionTimers(c, id);
    case Advance(ms) => AdvanceTimers(c, ms);
  }

  // ---- promises ----

  predicate DueOk(c: Conn) {
    TimersLive(c.host) && RequestTimers(c)
  }

  lemma FramePromises(c: Conn, d: Conn)
    requires PromisesOk(c) && d.host.promises == c.host.promises && d.pending == c.pending
    requires d.host.now >= c.host.now && d.host.reactions <= c.host.reactions
    ensures PromisesOk(d)
    ensures d.host.reactions == c.host.reactions ==> HeartbeatsOut(d) == HeartbeatsOut(c)
  {
    forall i | 0 <= i < |d.host.promises| ensures CallsOk(d.host.promises[i], d.host.now) && CountOk(d, i) {
      assert CallsOk(c.host.promises[i], c.host.now) && CountOk(c, i);
    }
  }

  lemma IssuePromises(c: Conn, kind: Kind, timeoutMs: nat)
    requires PromisesOk(c) && DueOk(c)
    ensures PromisesOk(Issue(c, kind, timeoutMs))
    ensures HeartbeatsOut(Issue(c, kind, timeoutMs))
         == HeartbeatsOut(c) + if kind == Heartbeat then {|c.host.promises|} else {}
  {
    NewPromise(c, kind, timeoutMs);
    var d := Issue(c, kind, timeoutMs);
    forall i | 0 <= i < |c.host.promises| ensures CallsOk(d.host.promises[i], d.host.now) && CountOk(d, i) {
      assert CallsOk(c.host.promises[i], c.host.now) && CountOk(c, i);
    }
  }

  lemma SettlePromises(c: Conn, d: Conn, id: nat, outcome: Outcome)
    requires PromisesOk(c) && DueOk(c) && id in c.pending && outcome != SendThrew
    requires var p := c.host.promises[id]; outcome == TimedOut ==> c.host.now == p.sentAt + p.delay
    requires var h := Settle(c.host, id, outcome); d.host.promises == h.promises && d.host.reactions == h.reactions
    requires d.host.now == c.host.now && d.pending == c.pending - {id}
    ensures PromisesOk(d) && HeartbeatsOut(d) == HeartbeatsOut(c)
  {
    var p := c.host.promises[id];
    assert c.host.now <= p.sentAt + p.delay;
    hide DueOk, HeartbeatsOut;
    assert CallsOk(d.host.promises[id], d.host.now) && CountOk(c, id) && CountOk(d, id);
    forall i | 0 <= i < |d.host.promises| && i != id
      ensures d.host.promises[i] == c.host.promises[i] && CallsOk(d.host.promises[i], d.host.now) && CountOk(d, i)
    {
      assert CallsOk(c.host.promises[i], c.host.now) && CountOk(c, i);
    }
    SettleHeartbeats(c, d, id);
  }

  lemma SettleHeartbeats(c: Conn, d: Conn, id: nat)
    requires id in c.pending && id < |c.host.promises| == |d.host.promises| && d.pending == c.pending - {id}
    requires forall i {:trigger d.host.promises[i]} :: 0 <= i < |c.host.promises| ==>
               d.host.promises[i].kind == c.host.promises[i].kind
    requires d.host.reactions == c.host.reactions + if c.host.promises[id].calls == [] then {id} else {}
    requires c.host.promises[id].kind == Heartbeat ==> c.host.promises[id].calls == []
    ensures HeartbeatsOut(d) == HeartbeatsOut(c)
  {
  }

  /** A lost request leaves the pending map and is not settled. */
  lemma LosePromises(c: Conn, id: nat)
    requires DueOk(c) && PromisesOk(c) && id in c.pending && id < |c.host.promises|
    requires c.host.promises[id].kind == Handshake
    ensures PromisesOk(Lose(c, id)) && HeartbeatsOut(Lose(c, id)) == HeartbeatsOut(c)
  {
    hide DueOk;
    var d := Lose(c, id);
    forall i | 0 <= i < |d.host.promises| ensures CallsOk(d.host.promises[i], d.host.now) && CountOk(d, i) {
      assert CallsOk(c.host.promises[i], c.host.now) && CountOk(c, i);
    }
    assert PromisesOk(d) by { hide HeartbeatsOut; }
  }

  lemma CleanupPromises(c: Conn)
    requires PromisesOk(c) && DueOk(c)
    ensures PromisesOk(Cleanup(c)) && HeartbeatsOut(Cleanup(c)) == HeartbeatsOut(c)
  {
    var d := Cleanup(c);
    CleanupFields(c);
    hide Cleanup;
    assert PromisesOk(d) by {
      hide HeartbeatsOut;
      forall i | 0 <= i < |d.host.promises| ensures CallsOk(d.host.promises[i], d.host.now) && CountOk(d, i) {
        assert CallsOk(c.host.promises[i], c.host.now) && CountOk(c, i);
      }
    }
    BeatsUnsettled(c);
    hide CallsOk, CountOk, PromisesOk, DueOk;
  }

  /** A heartbeat in flight is not settled yet. */
  lemma BeatsUnsettled(c: Conn)
    requires PromisesOk(c)
    ensures forall i :: i in c.pending && i < |c.host.promises| && c.host.promises[i].kind == Heartbeat ==>
              c.host.promises[i].calls == []
  {
    forall i | i in c.pending && i < |c.host.promises| && c.host.promises[i].kind == Heartbeat
      ensures c.host.promises[i].calls == []
    {
      assert CountOk(c, i);
    }
  }

  /** The throw settles the new promise and leaves the request where it was. */
  lemma ThrowPromises(c: Conn, id: nat)
    requires PromisesOk(c) && id < |c.host.promises| && id in c.pending && c.host.promises[id].kind != Heartbeat
    requires c.host.now == c.host.promises[id].sentAt && c.host.promises[id].calls == []
    ensures PromisesOk(c.(host := Settle(c.host, id, SendThrew)))
    ensures HeartbeatsOut(c.(host := Settle(c.host, id, SendThrew))) == HeartbeatsOut(c)
  {
    var d := c.(host := Settle(c.host, id, SendThrew));
    forall i | 0 <= i < |d.host.promises| ensures CallsOk(d.host.promises[i], d.host.now) && CountOk(d, i) {
      assert CallsOk(c.host.promises[i], c.host.now) && CountOk(c, i);
      if i != id { assert d.host.promises[i] == c.host.promises[i]; }
    }
    ThrowHeartbeats(c, id);
    hide CallsOk, CountOk, HeartbeatsOut;
  }

  lemma ThrowHeartbeats(c: Conn, id: nat)
    requires id < |c.host.promises| && c.host.promises[id].kind != Heartbeat
    ensures HeartbeatsOut(c.(host := Settle(c.host, id, SendThrew))) == HeartbeatsOut(c)
  {
    var d := c.(host := Settle(c.host, id, SendThrew));
    assert forall i :: 0 <= i < |c.host.promises| ==> d.host.promises[i].kind == c.host.promises[i].kind;
  }

  lemma DispatchPromises(c: Conn, kind: Kind, timeoutMs: nat, lands: bool)
    requires PromisesOk(c) && DueOk(c) && kind != Heartbeat
    ensures var d := Dispatch(c, kind, timeoutMs, lands);
            PromisesOk(d) && HeartbeatsOut(d) == HeartbeatsOut(c) && d.heartbeatPending == c.heartbeatPending
  {
    IssuePromises(c, kind, timeoutMs);
    hide PromisesOk, HeartbeatsOut;
    if !lands { ThrowPromises(Issue(c, kind, timeoutMs), |c.host.promises|); }
  }

  lemma OpenedPromises(c: Conn, s: nat)
    requires TimersOk(c) && PromisesOk(c) && s < |c.host.sockets|
    ensures PromisesOk(OnOpened(c, s)) && HeartbeatsOut(OnOpened(c, s)) == HeartbeatsOut(c)
    ensures OnOpened(c, s).heartbeatPending == c.heartbeatPending
  {
    hide TimersOk, PromisesOk, Dispatch;
    var c1 := c.(host := c.host.(sockets := c.host.sockets[s := Open]), reconnectAttempt := 0);
    FrameTimers(c, c1);
    StartPingTimers(c1);
    FramePromises(c, StartPing(c1));
    DueOfTimers(StartPing(c1));
    DispatchPromises(StartPing(c1), Handshake, HANDSHAKE_TIMEOUT_MS, CanSend(StartPing(c1)));
  }

  lemma DueOfTimers(c: Conn)
    requires TimersOk(c)
    ensures DueOk(c)
  {
  }

  lemma TimeoutPromises(c: Conn, t: nat)
    requires TimersOk(c) && PromisesOk(c) && Enabled(c, Fired(t)) && c.host.timers[t].task.RequestTimeout?
    ensures PromisesOk(OnFired(c, t)) && HeartbeatsOut(OnFired(c, t)) == HeartbeatsOut(c)
  {
    var id := c.host.timers[t].task.id;
    assert c.pending[id] == t;
    hide PromisesOk, HeartbeatsOut;
    SettlePromises(c, OnFired(c, t), id, TimedOut);
  }

  lemma AnswerPromises(c: Conn, id: nat, outcome: Outcome)
    requires DueOk(c) && PromisesOk(c) && id in c.pending && id < |c.host.promises| && outcome !in {TimedOut, SendThrew}
    ensures PromisesOk(Answer(c, id, outcome)) && HeartbeatsOut(Answer(c, id, outcome)) == HeartbeatsOut(c)
  {
    hide DueOk, PromisesOk, HeartbeatsOut;
    SettlePromises(c, Answer(c, id, outcome), id, outcome);
  }

  lemma MessagePromises(c: Conn, m: Message)
    requires TimersOk(c) && PromisesOk(c)
    ensures PromisesOk(OnMessage(c, m)) && HeartbeatsOut(OnMessage(c, m)) == HeartbeatsOut(c)
  {
    DueOfTimers(c);
    MessageIsAnswer(c, m);
    hide TimersOk, PromisesOk, HeartbeatsOut, DueOk, Answer, Lose, OnMessage;
    if ResolverThrows(c, m) {
      LosePromises(c, m.id);
    } else if Answered(c, m) {
      AnswerPromises(c, Addressee(m).value, Verdict(m));
      FramePromises(Answer(c, Addressee(m).value, Verdict(m)), OnMessage(c, m));
    }
  }

  /** A tick sends a heartbeat only when the last one has been seen through. */
  lemma TickPromises(c: Conn, t: nat)
    requires TimersOk(c) && PromisesOk(c) && HeartbeatOk(c) && Enabled(c, Fired(t)) && c.host.timers[t].task == PingTick
    ensures PromisesOk(OnFired(c, t)) && HeartbeatOk(OnFired(c, t))
  {
    NoPongTimerAtTick(c, t);
    RearmedTimers(c, t);
    hide TimersOk;
    var c1 := Rearmed(c, t);
    FramePromises(c, c1);
    if IsConnected(c1) {
      AwaitPongTimers(c1, t);
      var c2 := AwaitPong(c1);
      FramePromises(c, c2);
      if !c2.heartbeatPending { BeatPromises(c2); }
    }
  }

  /** The first heartbeat out. */
  lemma BeatPromises(c: Conn)
    requires TimersOk(c) && PromisesOk(c) && HeartbeatOk(c) && !c.heartbeatPending
    ensures var d := Issue(c.(heartbeatPending := true), Heartbeat, c.quickTimeoutMs); PromisesOk(d) && HeartbeatOk(d)
  {
    hide TimersOk, PromisesOk, HeartbeatsOut, Issue;
    var c1 := c.(heartbeatPending := true);
    FramePromises(c, c1);
    FrameTimers(c, c1);
    DueOfTimers(c1);
    IssuePromises(c1, Heartbeat, c1.quickTimeoutMs);
    IssueBeats(c1, Heartbeat, c1.quickTimeoutMs);
    assert HeartbeatsOut(c1) == {};
  }

  lemma IssueBeats(c: Conn, kind: Kind, timeoutMs: nat)
    ensures Issue(c, kind, timeoutMs).heartbeatPending == c.heartbeatPending
  {
  }

  lemma ReactionPromises(c: Conn, id: nat)
    requires PromisesOk(c) && HeartbeatOk(c) && Enabled(c, Reaction(id))
    ensures PromisesOk(OnReaction(c, id)) && HeartbeatOk(OnReaction(c, id))
  {
    var d := OnReaction(c, id);
    BeatsUnsettled(c);
    assert c.host.promises[id].calls != [];
    hide PromisesOk, HeartbeatsOut;
    ReactionHeartbeats(c, id);
    ReactionFrame(c, id);
    hide OnReaction;
    FramePromises(c, d);
    if c.host.promises[id].kind == Heartbeat { OneHeartbeat(c, id); }
  }

  lemma ReactionFrame(c: Conn, id: nat)
    requires id < |c.host.promises|
    ensures var d := OnReaction(c, id);
            && d.host.promises == c.host.promises && d.host.now == c.host.now && d.pending == c.pending
            && d.host.reactions == c.host.reactions - {id}
            && d.heartbeatPending == (c.heartbeatPending && c.host.promises[id].kind != Heartbeat)
  {
  }

  lemma OneHeartbeat(c: Conn, id: nat)
    requires HeartbeatOk(c) && id in HeartbeatsOut(c)
    ensures HeartbeatsOut(c) == {id}
  {
    hide HeartbeatsOut;
  }

  lemma ReactionHeartbeats(c: Conn, id: nat)
    requires Enabled(c, Reaction(id)) && (c.host.promises[id].kind == Heartbeat ==> id !in c.pending)
    ensures var d := OnReaction(c, id);
            if c.host.promises[id].kind == Heartbeat
            then id in HeartbeatsOut(c) && HeartbeatsOut(d) == HeartbeatsOut(c) - {id}
            else HeartbeatsOut(d) == HeartbeatsOut(c)
  {
  }

  lemma FiredPromises(c: Conn, t: nat)
    requires TimersOk(c) && PromisesOk(c) && HeartbeatOk(c) && Enabled(c, Fired(t))
    ensures PromisesOk(OnFired(c, t)) && HeartbeatOk(OnFired(c, t))
  {
    hide TimersOk, PromisesOk, HeartbeatsOut;
    match c.host.timers[t].task
    case PingTick => TickPromises(c, t);
    case RequestTimeout(id) => TimeoutPromises(c, t);
    case PongTimeout => FramePromises(c, OnFired(c, t));
    case Reconnect => FramePromises(c, OnFired(c, t));
  }

  lemma DisconnectPromises(c: Conn)
    requires TimersOk(c) && PromisesOk(c)
    ensures PromisesOk(OnDisconnect(c)) && HeartbeatsOut(OnDisconnect(c)) == HeartbeatsOut(c)
    ensures OnDisconnect(c).heartbeatPending == c.heartbeatPending
  {
    hide TimersOk, PromisesOk, HeartbeatsOut, Cleanup;
    var c1 := c.(isClosing := true, lastDisconnectReason := ClosedNormally,
                 pendingCloseCode := Some(ClosedByClient), currentState := Disconnected);
    FrameTimers(c, c1);
    FramePromises(c, c1);
    DueOfTimers(c1);
    CleanupPromises(c1);
    CleanupFields(c1);
    FramePromises(Cleanup(c1), OnDisconnect(c));
  }

  lemma CleanupFields(c: Conn)
    ensures var d := Cleanup(c);
            && d == c.(host := d.host, pending := map[], pingInterval := None, pongTimeout := None,
                       reconnectTimeout := None, handshakeResult := None, pendingCloseCode := None)
            && d.host == Rejected(c.host, c.pending, CleanupCode(c)).(timers := d.host.timers)
            && d.host.sockets == c.host.sockets && d.host.now == c.host.now && d.host.nextTimer == c.host.nextTimer
  {
  }

  lemma ScheduleFields(c: Conn, rejection: nat)
    ensures var d := ScheduleReconnect(c, rejection);
            && d == c.(host := d.host, reconnectAttempt := d.reconnectAttempt,
                       reconnectTimeout := d.reconnectTimeout, armings := d.armings)
            && d.host == c.host.(nextTimer := d.host.nextTimer, timers := d.host.timers)
            && d.reconnectTimeout.Some?
            && d.armings == if c.reconnectTimeout.Some? then c.armings
                            else c.armings + [Arming(rejection, ReconnectDelay(c.reconnectAttempt), c.host.now)]
  {
  }

  lemma ClosedFields(c: Conn, s: nat, code: nat)
    requires s < |c.host.sockets|
    ensures var c1 := Classify(c.(host := c.host.(sockets := c.host.sockets[s := Closed])), code);
            var (d1, d) := (Cleanup(c1), OnClosed(c, s, code));
            && c1.host == c.host.(sockets := c.host.sockets[s := Closed])
            && (c1.pending, c1.pingInterval, c1.pongTimeout, c1.reconnectTimeout, c1.heartbeatPending)
               == (c.pending, c.pingInterval, c.pongTimeout, c.reconnectTimeout, c.heartbeatPending)
            && d.pending == d1.pending && d.heartbeatPending == c.heartbeatPending
            && d.host.(nextTimer := 0, timers := map[]) == d1.host.(nextTimer := 0, timers := map[])
  {
    hide Cleanup, ScheduleReconnect, Rejected, Classify, ReconnectDelay;
    var c0 := c.(host := c.host.(sockets := c.host.sockets[s := Closed]));
    ClassifyFields(c0, code);
    var c1 := Classify(c0, code);
    var c2 := Cleanup(c1);
    CleanupFields(c1);
    ScheduleFields(c2, if code == CLOSE_CODE_ALREADY_CONNECTED then c2.rejectionCount else 0);
  }

  lemma ClosedPromises(c: Conn, s: nat, code: nat)
    requires TimersOk(c) && PromisesOk(c) && s < |c.host.sockets|
    ensures PromisesOk(OnClosed(c, s, code)) && HeartbeatsOut(OnClosed(c, s, code)) == HeartbeatsOut(c)
    ensures OnClosed(c, s, code).heartbeatPending == c.heartbeatPending
  {
    ClosedFields(c, s, code);
    hide TimersOk, PromisesOk, HeartbeatsOut, Cleanup, Classify, OnClosed;
    var c1 := Classify(c.(host := c.host.(sockets := c.host.sockets[s := Closed])), code);
    FrameTimers(c, c1);
    FramePromises(c, c1);
    DueOfTimers(c1);
    CleanupPromises(c1);
    FramePromises(Cleanup(c1), OnClosed(c, s, code));
  }

  lemma SameBeats(c: Conn, d: Conn)
    requires HeartbeatOk(c) && HeartbeatsOut(d) == HeartbeatsOut(c) && d.heartbeatPending == c.heartbeatPending
    ensures HeartbeatOk(d)
  {
  }

  lemma SendPromises(c: Conn, timeoutMs: Option<nat>, serialises: bool)
    requires TimersOk(c) && PromisesOk(c)
    ensures var d := OnSend(c, timeoutMs, serialises);
            PromisesOk(d) && HeartbeatsOut(d) == HeartbeatsOut(c) && d.heartbeatPending == c.heartbeatPending
  {
    hide TimersOk, PromisesOk, HeartbeatsOut, DueOk;
    DueOfTimers(c);
    DispatchPromises(c, Command, if timeoutMs.Some? then timeoutMs.value else c.quickTimeoutMs, serialises);
  }

  lemma OtherPromises(c: Conn, e: Event)
    requires PromisesOk(c) && Enabled(c, e) && (e.Connect? || e.Pong? || e.SocketError? || e.Advance?)
    ensures var d := Step(c, e);
            PromisesOk(d) && HeartbeatsOut(d) == HeartbeatsOut(c) && d.heartbeatPending == c.heartbeatPending
  {
    hide PromisesOk, HeartbeatsOut;
    FramePromises(c, Step(c, e));
  }

  lemma StepPromises(c: Conn, e: Event)
    requires TimersOk(c) && PromisesOk(c) && HeartbeatOk(c) && Enabled(c, e)
    ensures PromisesOk(Step(c, e)) && HeartbeatOk(Step(c, e))
  {
    hide TimersOk, PromisesOk, HeartbeatsOut, HeartbeatOk, DueOk;
    hide OnConnect, OnDisconnect, OnSend, OnOpened, OnMessage, OnClosed, OnFired, ClearPong, OnError, OnReaction;
    match e
    case Disconnect => DisconnectPromises(c); SameBeats(c, OnDisconnect(c));
    case Send(timeoutMs, serialises) =>
      SendPromises(c, timeoutMs, serialises);
      SameBeats(c, OnSend(c, timeoutMs, serialises));
    case Opened(s) => OpenedPromises(c, s); SameBeats(c, OnOpened(c, s));
    case Delivered(_, m) =>
      MessagePromises(c, m);
      MessageFields(c, m);
      SameBeats(c, OnMessage(c, m));
    case SocketClosed(s, code) => ClosedPromises(c, s, code); SameBeats(c, OnClosed(c, s, code));
    case Fired(t) => FiredPromises(c, t);
    case Reaction(id) => ReactionPromises(c, id);
    case _ => OtherPromises(c, e); SameBeats(c, Step(c, e));
  }

  // ---- the other fields ----

  lemma AnswerFields(c: Conn, id: nat, outcome: Outcome)
    requires id in c.pending && id < |c.host.promises|
    ensures var d := Answer(c, id, outcome);
            d == c.(host := d.host, pending := d.pending)
            && d.host.sockets == c.host.sockets && d.host.now == c.host.now
  {
  }

  lemma LoseFields(c: Conn, id: nat)
    requires id in c.pending && id < |c.host.promises|
    ensures var d := Lose(c, id);
            d == c.(host := d.host, pending := d.pending)
            && d.host.sockets == c.host.sockets && d.host.now == c.host.now
  {
  }

  /** A message touches nothing outside the pending map, the handshake result and the host. */
  lemma MessageFields(c: Conn, m: Message)
    ensures var d := OnMessage(c, m);
            d == c.(host := d.host, pending := d.pending, handshakeResult := d.handshakeResult)
            && d.host.sockets == c.host.sockets && d.host.now == c.host.now
  {
    hide Answer, Lose;
    if Answered(c, m) && Addressee(m).value < |c.host.promises| {
      AnswerFields(c, Addressee(m).value, Verdict(m));
      LoseFields(c, Addressee(m).value);
    }
  }

  /** The handlers that create no socket and arm no reconnect. */
  predicate Quiet(c: Conn, d: Conn) {
    && d.host.sockets == c.host.sockets && d.ws == c.ws && d.isClosing == c.isClosing
    && d.autoReconnect == c.autoReconnect && d.reconnectTimeout == c.reconnectTimeout
    && d.pendingCloseCode == c.pendingCloseCode && d.rejectionCount == c.rejectionCount && d.armings == c.armings
  }

  lemma QuietFields(c: Conn, d: Conn)
    requires FieldsOk(c) && Quiet(c, d)
    ensures FieldsOk(d)
  {
  }

  lemma ConnectFields(c: Conn)
    requires FieldsOk(c)
    ensures FieldsOk(OnConnect(c))
    ensures OnConnect(c).host.sockets != [] && exists s :: SocketIn(OnConnect(c), s, {Connecting, Open})
  {
    var d := OnConnect(c);
    if IsConnected(c) {
      assert SocketIn(d, c.ws.value, {Connecting, Open});
    } else {
      assert SocketIn(d, |c.host.sockets|, {Connecting, Open});
      assert d.host.sockets[|c.host.sockets|] != Closed;
    }
  }

  /** The only socket whose state changes is not closed by it. */
  lemma MovedFields(c: Conn, d: Conn, s: nat)
    requires FieldsOk(c) && s < |c.host.sockets| == |d.host.sockets|
    requires Quiet(c.(host := d.host), d) && d.host.sockets == c.host.sockets[s := d.host.sockets[s]]
    requires d.host.sockets[s] == Closed ==> c.host.sockets[s] == Closed
    ensures FieldsOk(d)
  {
    if d.autoReconnect && !d.isClosing && d.reconnectTimeout == None {
      var k :| 0 <= k < |c.host.sockets| && c.host.sockets[k] != Closed;
      assert d.host.sockets[k] != Closed;
    }
  }

  lemma ArmedBackoff(c: Conn, d: Conn, a: Arming)
    requires BackoffOk(c) && c.rejectionCount <= d.rejectionCount
    requires a.rejection > 0 ==> c.rejectionCount < a.rejection <= d.rejectionCount
    requires d.armings == c.armings
      || (d.armings == c.armings + [a] && (a.rejection > 0 ==> a.delay == ReconnectDelay(a.rejection - 1)))
    ensures BackoffOk(d)
  {
  }

  lemma ClassifyFields(c: Conn, code: nat)
    ensures var d := Classify(c, code);
            && d == c.(currentState := Disconnected, lastDisconnectReason := d.lastDisconnectReason,
                       pendingCloseCode := d.pendingCloseCode, rejectionCount := d.rejectionCount,
                       reconnectAttempt := d.reconnectAttempt)
            && d.rejectionCount == c.rejectionCount + (if code == CLOSE_CODE_ALREADY_CONNECTED then 1 else 0)
            && ReconnectDelay(d.reconnectAttempt)
               == ReconnectDelay(if code == CLOSE_CODE_ALREADY_CONNECTED then c.rejectionCount else c.reconnectAttempt)
  {
    DelayIsCapped(c.rejectionCount);
    var c1 := c.(currentState := Disconnected);
    RejectionFields(c1);
    LossFields(c1, code, c.currentState == Connected);
    hide ReconnectDelay, NoteRejection, NoteLoss;
  }

  lemma RejectionFields(c: Conn)
    ensures var d := NoteRejection(c);
            && d == c.(lastDisconnectReason := d.lastDisconnectReason, pendingCloseCode := d.pendingCloseCode,
                       rejectionCount := c.rejectionCount + 1, reconnectAttempt := d.reconnectAttempt)
            && d.reconnectAttempt
               == if c.rejectionCount < |RECONNECT_DELAYS| then c.rejectionCount else |RECONNECT_DELAYS| - 1
  {
  }

  lemma LossFields(c: Conn, code: nat, wasConnected: bool)
    ensures var d := NoteLoss(c, code, wasConnected);
            d == c.(lastDisconnectReason := d.lastDisconnectReason, pendingCloseCode := d.pendingCloseCode)
  {
  }

  lemma DelayIsCapped(n: nat)
    ensures ReconnectDelay(if n < |RECONNECT_DELAYS| then n else |RECONNECT_DELAYS| - 1) == ReconnectDelay(n)
  {
  }

  /** The reconnect that answers a close: delayed by the count of rejections if it is one more
      rejection, and by the count of attempts otherwise. */
  function ClosedArming(c: Conn, code: nat): Arming {
    if code == CLOSE_CODE_ALREADY_CONNECTED
    then Arming(c.rejectionCount + 1, ReconnectDelay(c.rejectionCount), c.host.now)
    else Arming(0, ReconnectDelay(c.reconnectAttempt), c.host.now)
  }

  /** What a close leaves of the connection's own fields, and the delay it arms. */
  lemma ClosedOutcome(c: Conn, s: nat, code: nat)
    requires s < |c.host.sockets|
    ensures var d := OnClosed(c, s, code);
            var rejected := code == CLOSE_CODE_ALREADY_CONNECTED;
            && d.host.sockets == c.host.sockets[s := Closed] && d.ws == c.ws && d.pendingCloseCode == None
            && d.currentState == Disconnected && d.autoReconnect == c.autoReconnect && d.isClosing == c.isClosing
            && d.rejectionCount == c.rejectionCount + (if rejected then 1 else 0)
            && if c.autoReconnect && !c.isClosing then
                 d.reconnectTimeout.Some? && d.armings == c.armings + [ClosedArming(c, code)]
               else d.armings == c.armings && d.reconnectTimeout == None
  {
    hide Classify, Cleanup, ScheduleReconnect, ReconnectDelay, Rejected;
    var c1 := c.(host := c.host.(sockets := c.host.sockets[s := Closed]));
    var c2 := Classify(c1, code);
    var c3 := Cleanup(c2);
    ClassifyFields(c1, code);
    CleanupFields(c2);
    ScheduleFields(c3, if code == CLOSE_CODE_ALREADY_CONNECTED then c3.rejectionCount else 0);
  }

  lemma ClosedFieldsOk(c: Conn, s: nat, code: nat)
    requires FieldsOk(c) && s < |c.host.sockets|
    ensures FieldsOk(OnClosed(c, s, code))
  {
    ClosedOutcome(c, s, code);
    hide OnClosed, ReconnectDelay;
    var d := OnClosed(c, s, code);
    ArmedBackoff(c, d, ClosedArming(c, code));
    hide BackoffOk;
  }

  lemma FiredFields(c: Conn, t: nat)
    requires FieldsOk(c) && Enabled(c, Fired(t))
    ensures FieldsOk(OnFired(c, t))
  {
    hide FieldsOk, OnFired;
    match c.host.timers[t].task
    case PingTick => TickIsQuiet(c, t); QuietFields(c, OnFired(c, t));
    case RequestTimeout(id) => TimeoutIsQuiet(c, t); QuietFields(c, OnFired(c, t));
    case PongTimeout => PongFiredFields(c, t);
    case Reconnect => ReconnectFields(c, t);
  }

  lemma TickIsQuiet(c: Conn, t: nat)
    requires t in c.host.timers && c.host.timers[t].task == PingTick
    ensures Quiet(c, OnFired(c, t)) && OnFired(c, t).currentState == c.currentState
  {
  }

  lemma TimeoutIsQuiet(c: Conn, t: nat)
    requires t in c.host.timers && c.host.timers[t].task.RequestTimeout?
    ensures Quiet(c, OnFired(c, t)) && OnFired(c, t).currentState == c.currentState
  {
    var id := c.host.timers[t].task.id;
    var gone := c.(host := Without(c.host, t));
    if id < |c.host.promises| { TimedOutIsQuiet(gone, id); }
    hide OnRequestTimeout;
  }

  lemma TimedOutIsQuiet(c: Conn, id: nat)
    requires id < |c.host.promises|
    ensures Quiet(c, OnRequestTimeout(c, id)) && OnRequestTimeout(c, id).currentState == c.currentState
  {
  }

  lemma PongFiredFields(c: Conn, t: nat)
    requires FieldsOk(c) && t in c.host.timers && c.host.timers[t].task == PongTimeout
    ensures FieldsOk(OnFired(c, t))
  {
    var d := OnFired(c, t);
    if c.ws.Some? {
      MovedFields(c, d, c.ws.value);
    }
    hide BackoffOk, Alive;
  }

  lemma ReconnectFields(c: Conn, t: nat)
    requires FieldsOk(c) && Enabled(c, Fired(t)) && c.host.timers[t].task == Reconnect
    ensures FieldsOk(OnFired(c, t))
  {
    hide BackoffOk;
    var d := OnFired(c, t);
    ArmedBackoff(c, d, Arming(0, 0, 0));
    if !IsConnected(c) { assert d.host.sockets[|c.host.sockets|] == Connecting; }
  }

  lemma DisconnectFields(c: Conn)
    requires FieldsOk(c)
    ensures FieldsOk(OnDisconnect(c)) && OnDisconnect(c).isClosing
  {
    var c1 := c.(isClosing := true, lastDisconnectReason := ClosedNormally,
                 pendingCloseCode := Some(ClosedByClient), currentState := Disconnected);
    CleanupFields(c1);
    hide Cleanup, BackoffOk;
    ArmedBackoff(c, OnDisconnect(c), Arming(0, 0, 0));
  }

  lemma StepFields(c: Conn, e: Event)
    requires FieldsOk(c) && Enabled(c, e)
    ensures FieldsOk(Step(c, e))
  {
    hide FieldsOk, OnConnect, OnDisconnect, OnSend, OnOpened, OnMessage, OnClosed, OnFired;
    hide ClearPong, OnError, OnReaction;
    match e
    case Connect => ConnectFields(c);
    case Disconnect => DisconnectFields(c);
    case SocketClosed(s, code) => ClosedFieldsOk(c, s, code);
    case Delivered(_, m) => MessageFields(c, m); QuietFields(c, OnMessage(c, m));
    case Opened(s) => OpenedFields(c, s);
    case Fired(t) => FiredFields(c, t);
    case Send(timeoutMs, serialises) => SendIsQuiet(c, timeoutMs, serialises); QuietFields(c, Step(c, e));
    case _ => OtherIsQuiet(c, e); QuietFields(c, Step(c, e));
  }

  lemma OpenedFields(c: Conn, s: nat)
    requires FieldsOk(c) && Enabled(c, Opened(s))
    ensures FieldsOk(OnOpened(c, s))
  {
    OpenedIsQuiet(c, s);
    hide FieldsOk, OnOpened;
    MovedFields(c, OnOpened(c, s), s);
  }

  lemma OpenedIsQuiet(c: Conn, s: nat)
    requires s < |c.host.sockets|
    ensures var d := OnOpened(c, s);
            && Quiet(c.(host := d.host), d) && d.host.sockets == c.host.sockets[s := Open]
            && d.currentState == c.currentState
  {
  }

  lemma SendIsQuiet(c: Conn, timeoutMs: Option<nat>, serialises: bool)
    ensures Quiet(c, OnSend(c, timeoutMs, serialises))
    ensures OnSend(c, timeoutMs, serialises).currentState == c.currentState
  {
  }

  lemma OtherIsQuiet(c: Conn, e: Event)
    requires Enabled(c, e) && (e.Pong? || e.SocketError? || e.Reaction? || e.Advance?)
    ensures Quiet(c, Step(c, e)) && (!e.Reaction? ==> Step(c, e).currentState == c.currentState)
  {
    hide ClearPong, OnReaction;
    match e
    case Pong(_) => PongIsQuiet(c);
    case Reaction(id) => ReactionIsQuiet(c, id);
    case _ =>
  }

  lemma PongIsQuiet(c: Conn)
    ensures Quiet(c, ClearPong(c)) && ClearPong(c).currentState == c.currentState
  {
  }

  lemma ReactionIsQuiet(c: Conn, id: nat)
    requires id < |c.host.promises|
    ensures Quiet(c, OnReaction(c, id))
  {
  }

  /** Sockets are never forgotten, `autoReconnect` never changes, and rejections are counted. */
  predicate Keeps(c: Conn, e: Event, d: Conn) {
    && |c.host.sockets| <= |d.host.sockets| && d.autoReconnect == c.autoReconnect
    && d.rejectionCount == c.rejectionCount + if e.SocketClosed? && e.code == CLOSE_CODE_ALREADY_CONNECTED then 1 else 0
  }

  lemma StepKeeps(c: Conn, e: Event)
    requires Enabled(c, e)
    ensures Keeps(c, e, Step(c, e)) && (e == Connect ==> Step(c, e).host.sockets != [])
  {
    hide OnDisconnect, OnSend, OnOpened, OnMessage, OnClosed, OnFired, ClearPong, OnError, OnReaction;
    match e
    case Connect =>
    case Disconnect => DisconnectKeeps(c);
    case SocketClosed(s, code) => ClosedOutcome(c, s, code);
    case Delivered(_, m) => MessageFields(c, m);
    case Opened(s) => OpenedIsQuiet(c, s);
    case Fired(t) => FiredKeeps(c, t);
    case Send(timeoutMs, serialises) => SendIsQuiet(c, timeoutMs, serialises);
    case _ => OtherIsQuiet(c, e);
  }

  lemma DisconnectKeeps(c: Conn)
    ensures Keeps(c, Disconnect, OnDisconnect(c))
  {
    CleanupFields(c.(isClosing := true, lastDisconnectReason := ClosedNormally,
                     pendingCloseCode := Some(ClosedByClient), currentState := Disconnected));
    hide Cleanup;
  }

  lemma FiredKeeps(c: Conn, t: nat)
    requires Enabled(c, Fired(t))
    ensures Keeps(c, Fired(t), OnFired(c, t))
  {
    match c.host.timers[t].task
    case PingTick =>
      hide OnFired;
      TickIsQuiet(c, t);
    case RequestTimeout(id) =>
      hide OnFired;
      TimeoutIsQuiet(c, t);
    case PongTimeout =>
    case Reconnect =>
  }

  // ---- the invariant ----

  lemma StepOk(c: Conn, e: Event)
    requires Inv(c) && Enabled(c, e)
    ensures Inv(Step(c, e))
  {
    hide TimersOk, PromisesOk, HeartbeatOk, FieldsOk, Step, Enabled;
    StepTimers(c, e);
    StepPromises(c, e);
    StepFields(c, e);
  }

  /** The ids the fields of a reachable state hold all name something. */
  lemma InvLinks(c: Conn)
    requires Inv(c)
    ensures forall i :: i in c.pending ==> i < |c.host.promises|
    ensures c.ws.Some? ==> c.ws.value < |c.host.sockets|
    ensures forall t :: t in c.host.timers && c.host.timers[t].task.RequestTimeout? ==>
              c.host.timers[t].task.id < |c.host.promises|
  {
  }

  lemma {:induction false} RunOk(c: Conn, es: seq<Event>)
    requires Inv(c) && Run(c, es).Some?
    ensures Inv(Run(c, es).value)
  {
    hide Inv, Enabled, Step;
    if es != [] {
      RunOk(c, es[..|es| - 1]);
      StepOk(Run(c, es[..|es| - 1]).value, es[|es| - 1]);
    }
  }
}

/** What each event does to each request, when requests run out, and what pings do: over every
    event and every run, read off the state before. */
module ConnectionRequests {
  import opened Options
  import opened ConnectionModel
  import opened ConnectionInvariants
  import opened ConnectionSafety
  import opened ConnectionHistory

  // ---- old requests ----

  predicate TimesOut(c: Conn, e: Event, i: nat) {
    FiresTask(c, e, RequestTimeout(i))
  }

  /** The event takes request `i` out of the pending map. */
  predicate Leaves(c: Conn, e: Event, i: nat) {
    i in c.pending &&
    ((e.Delivered? && Addressee(e.message) == Some(i)) || e.SocketClosed? || e.Disconnect? || TimesOut(c, e, i))
  }

  /** What a request taken out of the map is settled with. */
  function OutcomeOf(c: Conn, e: Event): Outcome {
    match e
    case Delivered(_, m) => Verdict(m)
    case SocketClosed(_, code) => ConnectionClosed(CodeOfClose(c, code))
    case Disconnect => ConnectionClosed(ClosedByClient)
    case _ => TimedOut
  }

  /** A request is settled as it leaves the map, or lost if its resolver throws, which queues what
      awaits it unless it was settled before; a queued continuation runs; nothing else happens to it. */
  predicate RequestMoves(c: Conn, e: Event, d: Conn, i: nat)
    requires i < |c.host.promises|
  {
    var p := c.host.promises[i];
    && i < |d.host.promises|
    && d.host.promises[i] == (if !Leaves(c, e, i) then p
                              else if Loses(c, e, i) then p.(lost := true)
                              else p.(calls := p.calls + [Settlement(OutcomeOf(c, e), c.host.now)]))
    && (i in d.pending <==> i in c.pending && !Leaves(c, e, i))
    && (i in d.host.reactions <==>
          e != Reaction(i) && (i in c.host.reactions || (Leaves(c, e, i) && !Loses(c, e, i) && p.calls == [])))
  }

  lemma FrameRequest(c: Conn, e: Event, d: Conn, i: nat)
    requires i < |c.host.promises| && d.host.promises == c.host.promises && d.pending == c.pending
    requires d.host.reactions == c.host.reactions && !Leaves(c, e, i) && !e.Reaction?
    ensures RequestMoves(c, e, d, i)
  {
    hide Leaves, Loses;
  }

  lemma IssuedRequest(c: Conn, e: Event, kind: Kind, timeoutMs: nat, lands: bool, d: Conn, i: nat)
    requires i < |c.host.promises| && !Leaves(c, e, i) && !e.Reaction?
    requires d == Dispatch(c, kind, timeoutMs, lands)
    ensures RequestMoves(c, e, d, i)
  {
    IssueIs(c, kind, timeoutMs);
    hide Issue, Leaves, Loses;
  }

  lemma ReplyRequest(c: Conn, s: nat, m: Message, i: nat)
    requires (forall k :: k in c.pending ==> k < |c.host.promises|) && i < |c.host.promises|
    ensures RequestMoves(c, Delivered(s, m), OnMessage(c, m), i)
  {
    MessageIsAnswer(c, m);
    hide OnMessage, Verdict, RequestMoves;
    if ResolverThrows(c, m) {
      LostRequest(c, s, m, i);
    } else if Answered(c, m) {
      AnsweredRequest(c, s, m, OnMessage(c, m), i);
    } else {
      FrameRequest(c, Delivered(s, m), c, i);
    }
  }

  lemma LostRequest(c: Conn, s: nat, m: Message, i: nat)
    requires ResolverThrows(c, m) && i < |c.host.promises|
    ensures RequestMoves(c, Delivered(s, m), Lose(c, m.id), i)
  {
  }

  lemma AnsweredRequest(c: Conn, s: nat, m: Message, d: Conn, i: nat)
    requires Answered(c, m) && !ResolverThrows(c, m) && Addressee(m).value < |c.host.promises| && i < |c.host.promises|
    requires d == Answer(c, Addressee(m).value, Verdict(m)).(handshakeResult := d.handshakeResult)
    ensures RequestMoves(c, Delivered(s, m), d, i)
  {
    hide Verdict;
  }

  lemma RejectedRequest(c: Conn, d: Conn, e: Event, i: nat)
    requires i < |c.host.promises| && d.pending == map[] && (e.SocketClosed? || e.Disconnect?)
    requires OutcomeOf(c, e).ConnectionClosed?
    requires var h := Rejected(c.host, c.pending, OutcomeOf(c, e).closeCode);
             d.host.promises == h.promises && d.host.reactions == h.reactions
    ensures RequestMoves(c, e, d, i)
  {
    hide CodeOfClose;
  }

  lemma ClosedRequest(c: Conn, s: nat, code: nat, i: nat)
    requires c.pendingCloseCode == None && s < |c.host.sockets| && i < |c.host.promises|
    ensures RequestMoves(c, SocketClosed(s, code), OnClosed(c, s, code), i)
  {
    hide OnClosed, Classify, Cleanup, CodeOfClose, CleanupCode;
    var c0 := c.(host := c.host.(sockets := c.host.sockets[s := Closed]));
    ClosedFields(c, s, code);
    ClassifyCode(c0, code);
    SameCode(c, c0, code);
    CleanupFields(Classify(c0, code));
    hide RequestMoves;
    RejectedRequest(c, OnClosed(c, s, code), SocketClosed(s, code), i);
  }

  lemma SameCode(c: Conn, d: Conn, code: nat)
    requires d.currentState == c.currentState && d.lastDisconnectReason == c.lastDisconnectReason
    ensures CodeOfClose(d, code) == CodeOfClose(c, code)
  {
  }

  lemma DisconnectRequest(c: Conn, i: nat)
    requires i < |c.host.promises|
    ensures RequestMoves(c, Disconnect, OnDisconnect(c), i)
  {
    var c1 := c.(isClosing := true, lastDisconnectReason := ClosedNormally,
                 pendingCloseCode := Some(ClosedByClient), currentState := Disconnected);
    CleanupFields(c1);
    hide Cleanup, RequestMoves, Rejected;
    RejectedRequest(c, OnDisconnect(c), Disconnect, i);
  }

  lemma TimeoutRequest(c: Conn, t: nat, i: nat)
    requires TimersOk(c) && t in c.host.timers && c.host.timers[t].task.RequestTimeout? && i < |c.host.promises|
    ensures RequestMoves(c, Fired(t), OnFired(c, t), i)
  {
    assert c.host.timers[t].task.id in c.pending && c.host.timers[t].task.id < |c.host.promises|;
    hide TimersOk;
  }

  lemma TickRequest(c: Conn, t: nat, i: nat)
    requires t in c.host.timers && c.host.timers[t].task == PingTick && i < |c.host.promises|
    ensures RequestMoves(c, Fired(t), OnFired(c, t), i)
  {
    hide RequestMoves, Issue;
    var c1 := AwaitPong(Rearmed(c, t)).(heartbeatPending := true);
    if IsConnected(c) && !c.heartbeatPending {
      IssuedRequest(c1, Fired(t), Heartbeat, c1.quickTimeoutMs, true, OnFired(c, t), i);
      SameRequest(c1, c, Fired(t), OnFired(c, t), i);
    } else {
      FrameRequest(c, Fired(t), OnFired(c, t), i);
    }
  }

  lemma SameRequest(c1: Conn, c: Conn, e: Event, d: Conn, i: nat)
    requires i < |c.host.promises| && c1.host.promises == c.host.promises && c1.pending == c.pending
    requires c1.host.reactions == c.host.reactions && !Leaves(c1, e, i) && !Leaves(c, e, i)
    requires RequestMoves(c1, e, d, i)
    ensures RequestMoves(c, e, d, i)
  {
    hide Leaves, Loses;
  }

  lemma FiredRequest(c: Conn, t: nat, i: nat)
    requires TimersOk(c) && t in c.host.timers && i < |c.host.promises|
    ensures RequestMoves(c, Fired(t), OnFired(c, t), i)
  {
    hide TimersOk, RequestMoves;
    match c.host.timers[t].task
    case RequestTimeout(_) => hide OnFired; TimeoutRequest(c, t, i);
    case PingTick => hide OnFired; TickRequest(c, t, i);
    case _ => FrameRequest(c, Fired(t), OnFired(c, t), i);
  }

  lemma OpenedRequest(c: Conn, s: nat, i: nat)
    requires s < |c.host.sockets| && i < |c.host.promises|
    ensures RequestMoves(c, Opened(s), OnOpened(c, s), i)
  {
    var c1 := StartPing(c.(host := c.host.(sockets := c.host.sockets[s := Open]), reconnectAttempt := 0));
    OpenedIsHandshake(c, s);
    assert c1.host.reactions == c.host.reactions;
    hide OnOpened, StartPing, Dispatch, RequestMoves;
    IssuedRequest(c1, Opened(s), Handshake, HANDSHAKE_TIMEOUT_MS, CanSend(c1), OnOpened(c, s), i);
    SameRequest(c1, c, Opened(s), OnOpened(c, s), i);
  }

  lemma SendRequest(c: Conn, timeoutMs: Option<nat>, serialises: bool, i: nat)
    requires i < |c.host.promises|
    ensures RequestMoves(c, Send(timeoutMs, serialises), OnSend(c, timeoutMs, serialises), i)
  {
    hide Dispatch, RequestMoves;
    var e := Send(timeoutMs, serialises);
    if IsConnected(c) {
      var ms := if timeoutMs.Some? then timeoutMs.value else c.quickTimeoutMs;
      IssuedRequest(c, e, Command, ms, serialises, OnSend(c, timeoutMs, serialises), i);
    } else {
      FrameRequest(c, e, c, i);
    }
  }

  lemma ReactionRequest(c: Conn, id: nat, i: nat)
    requires id < |c.host.promises| && i < |c.host.promises|
    ensures RequestMoves(c, Reaction(id), OnReaction(c, id), i)
  {
  }

  /** What every event does to every request there is. */
  lemma EventsMoveRequests(c: Conn, e: Event, i: nat)
    requires Inv(c) && Enabled(c, e) && i < |c.host.promises|
    ensures RequestMoves(c, e, Step(c, e), i)
  {
    InvLinks(c);
    assert TimersOk(c) && c.pendingCloseCode == None by { hide TimersOk, PromisesOk, HeartbeatOk; }
    hide Inv, TimersOk, RequestMoves;
    hide OnDisconnect, OnSend, OnOpened, OnMessage, OnClosed, OnFired, OnReaction;
    match e
    case Disconnect => DisconnectRequest(c, i);
    case Send(timeoutMs, serialises) => SendRequest(c, timeoutMs, serialises, i);
    case Opened(s) => OpenedRequest(c, s, i);
    case Delivered(s, m) => ReplyRequest(c, s, m, i);
    case SocketClosed(s, code) => ClosedRequest(c, s, code, i);
    case Fired(t) => FiredRequest(c, t, i);
    case Reaction(id) => ReactionRequest(c, id, i);
    case _ => hide *; OtherRequest(c, e, i);
  }

  lemma OtherRequest(c: Conn, e: Event, i: nat)
    requires Enabled(c, e) && i < |c.host.promises| && (e.Connect? || e.Pong? || e.SocketError? || e.Advance?)
    ensures RequestMoves(c, e, Step(c, e), i)
  {
    hide RequestMoves;
    FrameRequest(c, e, Step(c, e), i);
  }

  // ---- new requests ----

  /** The request an event issues: a handshake on an `open`, a command sent over an open socket, a
      heartbeat on a tick over an open socket unless the last one is still out. */
  function Issues(c: Conn, e: Event): Option<Kind> {
    if e.Opened? then Some(Handshake)
    else if e.Send? && IsConnected(c) then Some(Command)
    else if FiresTask(c, e, PingTick) && IsConnected(c) && !c.heartbeatPending then Some(Heartbeat)
    else None
  }

  /** The timeout each kind of request is given: 5 seconds, what the caller asked for or else the
      quick default, and the quick default. */
  function Allowance(c: Conn, e: Event, kind: Kind): nat {
    match kind
    case Handshake => 5000
    case Command => if e.Send? && e.timeoutMs.Some? then e.timeoutMs.value else c.quickTimeoutMs
    case Heartbeat => c.quickTimeoutMs
  }

  /** A delay as `setTimeout` takes it. */
  function Delayed(ms: nat): nat {
    if 1 <= ms <= 0x7FFF_FFFF then ms else 1
  }

  predicate NewRequest(c: Conn, e: Event, d: Conn) {
    var n := |c.host.promises|;
    match Issues(c, e)
    case None => |d.host.promises| == n
    case Some(kind) =>
      && |d.host.promises| == n + 1 && n in d.pending && (n in d.host.reactions <==> SendThrows(c, e))
      && d.host.promises[n] == Promise(kind, c.host.now, Delayed(Allowance(c, e, kind)),
                                       if SendThrows(c, e) then [Settlement(SendThrew, c.host.now)] else [], false)
  }

  lemma DispatchIs(c: Conn, kind: Kind, timeoutMs: nat, lands: bool)
    requires |c.host.promises| !in c.host.reactions
    ensures var (d, n) := (Dispatch(c, kind, timeoutMs, lands), |c.host.promises|);
            && |d.host.promises| == n + 1 && n in d.pending && (n in d.host.reactions <==> !lands)
            && d.host.promises[n] == Promise(kind, c.host.now, Delayed(timeoutMs),
                                             if lands then [] else [Settlement(SendThrew, c.host.now)], false)
  {
    IssueIs(c, kind, timeoutMs);
    assert TimerDelay(timeoutMs) == Delayed(timeoutMs);
    hide Issue, TimerDelay, Delayed;
    assert [] + [Settlement(SendThrew, c.host.now)] == [Settlement(SendThrew, c.host.now)];
  }

  lemma OpenedIssues(c: Conn, s: nat)
    requires s < |c.host.sockets| && |c.host.promises| !in c.host.reactions
    ensures NewRequest(c, Opened(s), OnOpened(c, s))
  {
    var c1 := StartPing(c.(host := c.host.(sockets := c.host.sockets[s := Open]), reconnectAttempt := 0));
    OpenedIsHandshake(c, s);
    assert c1.host.reactions == c.host.reactions;
    hide OnOpened, StartPing, Dispatch, SendThrows, CanSend, Delayed;
    DispatchIs(c1, Handshake, HANDSHAKE_TIMEOUT_MS, CanSend(c1));
  }

  lemma SendIssues(c: Conn, timeoutMs: Option<nat>, serialises: bool)
    requires |c.host.promises| !in c.host.reactions
    ensures NewRequest(c, Send(timeoutMs, serialises), OnSend(c, timeoutMs, serialises))
  {
    hide Dispatch, Delayed;
    DispatchIs(c, Command, if timeoutMs.Some? then timeoutMs.value else c.quickTimeoutMs, serialises);
  }

  lemma TickIssues(c: Conn, t: nat)
    requires t in c.host.timers && c.host.timers[t].task == PingTick && |c.host.promises| !in c.host.reactions
    ensures NewRequest(c, Fired(t), OnFired(c, t))
  {
    hide Issue, Delayed;
    var c1 := AwaitPong(Rearmed(c, t)).(heartbeatPending := true);
    DispatchIs(c1, Heartbeat, c1.quickTimeoutMs, true);
  }

  lemma FiredIssues(c: Conn, t: nat)
    requires t in c.host.timers && |c.host.promises| !in c.host.reactions
    ensures NewRequest(c, Fired(t), OnFired(c, t))
  {
    match c.host.timers[t].task
    case PingTick => hide NewRequest, OnFired; TickIssues(c, t);
    case RequestTimeout(id) =>
      assert id < |c.host.promises| ==> |OnRequestTimeout(c, id).host.promises| == |c.host.promises|;
    case _ =>
  }

  lemma ClosedIssues(c: Conn, s: nat, code: nat)
    requires s < |c.host.sockets|
    ensures |OnClosed(c, s, code).host.promises| == |c.host.promises|
  {
    ClosedFields(c, s, code);
    var c0 := c.(host := c.host.(sockets := c.host.sockets[s := Closed]));
    CleanupFields(Classify(c0, code));
    hide OnClosed, Classify, Cleanup;
  }

  lemma DisconnectIssues(c: Conn)
    ensures |OnDisconnect(c).host.promises| == |c.host.promises|
  {
    CleanupFields(c.(isClosing := true, lastDisconnectReason := ClosedNormally,
                     pendingCloseCode := Some(ClosedByClient), currentState := Disconnected));
    hide Cleanup;
  }

  lemma MessageIssues(c: Conn, m: Message)
    requires forall i :: i in c.pending ==> i < |c.host.promises|
    ensures |OnMessage(c, m).host.promises| == |c.host.promises|
  {
    MessageIsAnswer(c, m);
    hide OnMessage;
  }

  lemma NoneQueued(c: Conn)
    requires Inv(c)
    ensures |c.host.promises| !in c.host.reactions
  {
    hide TimersOk, HeartbeatOk, FieldsOk, CallsOk, CountOk;
  }

  /** Every event issues exactly the request it should, with the timeout it should have, and a
      request whose executor throws is rejected there and then. */
  lemma EventsIssueRequests(c: Conn, e: Event)
    requires Inv(c) && Enabled(c, e)
    ensures NewRequest(c, e, Step(c, e))
  {
    InvLinks(c);
    NoneQueued(c);
    hide Inv, NewRequest;
    hide OnDisconnect, OnSend, OnOpened, OnMessage, OnClosed, OnFired;
    match e
    case Disconnect => DisconnectIssues(c); NothingIssued(c, e, OnDisconnect(c));
    case Send(timeoutMs, serialises) => SendIssues(c, timeoutMs, serialises);
    case Opened(s) => OpenedIssues(c, s);
    case Delivered(_, m) => MessageIssues(c, m); NothingIssued(c, e, OnMessage(c, m));
    case SocketClosed(s, code) => ClosedIssues(c, s, code); NothingIssued(c, e, OnClosed(c, s, code));
    case Fired(t) => FiredIssues(c, t);
    case _ => hide *; OtherIssues(c, e);
  }

  lemma NothingIssued(c: Conn, e: Event, d: Conn)
    requires !e.Send? && !e.Opened? && !e.Fired? && |d.host.promises| == |c.host.promises|
    ensures NewRequest(c, e, d)
  {
    hide SendThrows, Allowance;
  }

  lemma OtherIssues(c: Conn, e: Event)
    requires Enabled(c, e) && (e.Connect? || e.Pong? || e.SocketError? || e.Reaction? || e.Advance?)
    ensures NewRequest(c, e, Step(c, e))
  {
    hide NewRequest;
    NothingIssued(c, e, Step(c, e));
  }

  // ---- deadlines ----

  /** While request `id` is pending its timer is armed for `due`; after that it is not pending but
      settled, unless its resolver threw; and it times out at that instant or not at all. */
  predicate RunsOutAt(c: Conn, id: nat, due: nat)
    requires id < |c.host.promises|
  {
    var p := c.host.promises[id];
    && p.sentAt + p.delay == due
    && (id in c.pending ==>
          && c.host.now <= due && c.pending[id] in c.host.timers
          && c.host.timers[c.pending[id]] == Timer(due, RequestTimeout(id)))
    && (c.host.now > due ==> id !in c.pending && (p.calls != [] || p.lost))
    && forall k :: 0 <= k < |p.calls| ==>
         p.calls[k].at <= due && (p.calls[k].outcome == TimedOut ==> p.calls[k].at == due)
  }

  lemma RunsOut(c: Conn, id: nat)
    requires Inv(c) && id < |c.host.promises|
    ensures RunsOutAt(c, id, c.host.promises[id].sentAt + c.host.promises[id].delay)
  {
    assert TimersOk(c) && PromisesOk(c) by { hide TimersOk, PromisesOk, HeartbeatOk, FieldsOk; }
    InTime(c, id);
    hide PromisesOk, HeartbeatOk, FieldsOk;
  }

  /** Every request an event issues runs out when its own timeout says, in every continuation: a
      command after what its caller asked for, or else the quick default; a heartbeat after the
      quick default; a handshake after five seconds. */
  lemma RequestsRunOutWhenDue(c: Conn, e: Event, es: seq<Event>)
    requires Inv(c) && Enabled(c, e) && Issues(c, e).Some? && Run(Step(c, e), es).Some?
    ensures var (d, id, kind) := (Run(Step(c, e), es).value, |c.host.promises|, Issues(c, e).value);
            && id < |d.host.promises| && d.host.promises[id].kind == kind
            && RunsOutAt(d, id, c.host.now + Delayed(Allowance(c, e, kind)))
  {
    hide Inv, Step, Run, Enabled, SendThrows, Issues, Allowance, Delayed, RunsOutAt, NewRequest, Threw;
    EventsIssueRequests(c, e);
    StepOk(c, e);
    var id := |c.host.promises|;
    NewRequestIs(c, e, Step(c, e));
    SettledForGood(Step(c, e), es, id);
    RunOk(Step(c, e), es);
    SamePromise(Step(c, e).host.promises[id], Run(Step(c, e), es).value.host.promises[id]);
    RunsOut(Run(Step(c, e), es).value, id);
  }

  lemma NewRequestIs(c: Conn, e: Event, d: Conn)
    requires NewRequest(c, e, d) && Issues(c, e).Some?
    ensures var (n, kind) := (|c.host.promises|, Issues(c, e).value);
            && n < |d.host.promises| && n in d.pending
            && d.host.promises[n].(calls := []) == Promise(kind, c.host.now, Delayed(Allowance(c, e, kind)), [], false)
            && (Threw(d.host.promises[n]) <==> SendThrows(c, e))
  {
    hide Allowance, SendThrows, Delayed;
  }

  lemma SamePromise(p: Promise, q: Promise)
    requires q.(calls := [], lost := false) == p.(calls := [], lost := false)
    ensures q.kind == p.kind && q.sentAt == p.sentAt && q.delay == p.delay
  {
  }

  /** A command over an open socket is issued, and one without is refused without a trace. */
  lemma CommandsNeedASocket(c: Conn, timeoutMs: Option<nat>, serialises: bool)
    ensures Issues(c, Send(timeoutMs, serialises)) == if IsConnected(c) then Some(Command) else None
    ensures !IsConnected(c) ==> Step(c, Send(timeoutMs, serialises)) == c
  {
  }

  /** A reply to a command or a heartbeat that is handled before its deadline settles it for good, if
      nothing has settled it yet; either way it never times out. */
  lemma EarlierReplyWins(c: Conn, e: Event, es: seq<Event>, s: nat, m: Message, after: seq<Event>)
    requires Inv(c) && Enabled(c, e) && Issues(c, e) in {Some(Command), Some(Heartbeat)} && !SendThrows(c, e)
    requires Run(Step(c, e), es).Some?
    requires var mid := Run(Step(c, e), es).value;
             && mid.host.now < c.host.now + Delayed(Allowance(c, e, Issues(c, e).value))
             && Enabled(mid, Delivered(s, m)) && Addressee(m) == Some(|c.host.promises|)
             && Run(Step(mid, Delivered(s, m)), after).Some?
    ensures var mid := Run(Step(c, e), es).value;
            var (d, id) := (Run(Step(mid, Delivered(s, m)), after).value, |c.host.promises|);
            && id < |mid.host.promises| && id < |d.host.promises| && |d.host.promises[id].calls| == 1
            && d.host.promises[id].calls[0].outcome != TimedOut
            && (mid.host.promises[id].calls == [] ==>
                  d.host.promises[id].calls == [Settlement(Verdict(m), mid.host.now)])
  {
    hide Inv, Step, Run, Enabled, SendThrows, Issues, Allowance, Delayed, NewRequest, Threw, Verdict, Addressee;
    EventsIssueRequests(c, e);
    StepOk(c, e);
    var id := |c.host.promises|;
    NewRequestIs(c, e, Step(c, e));
    SettledForGood(Step(c, e), es, id);
    RunOk(Step(c, e), es);
    SamePromise(Step(c, e).host.promises[id], Run(Step(c, e), es).value.host.promises[id]);
    ReplyWins(Run(Step(c, e), es).value, s, m, after);
  }

  // ---- continuations ----

  /** What awaited request `i` has run. */
  predicate Resumed(es: seq<Event>, i: nat) {
    es != [] && (Last(es) == Reaction(i) || Resumed(es[..|es| - 1], i))
  }

  /** What awaits a request is queued from the moment the request is first settled until it runs,
      and runs once at most. */
  lemma {:induction false} ContinuationsRunOnce(autoReconnect: bool, quickTimeoutMs: nat, es: seq<Event>, i: nat)
    requires Run(Init(autoReconnect, quickTimeoutMs), es).Some?
    ensures var c := Run(Init(autoReconnect, quickTimeoutMs), es).value;
            && (i < |c.host.promises| ==>
                  (i in c.host.reactions <==> c.host.promises[i].calls != [] && !Resumed(es, i)))
            && (Resumed(es, i) ==> i < |c.host.promises| && c.host.promises[i].calls != [])
  {
    hide Inv, Enabled, Step, Run, RequestMoves, NewRequest, Resumed, Columns;
    var c0 := Init(autoReconnect, quickTimeoutMs);
    InitOk(autoReconnect, quickTimeoutMs);
    if es == [] {
      NothingRun(c0);
      NothingResumed(i);
    } else {
      var front := es[..|es| - 1];
      LastStep(c0, es);
      ContinuationsRunOnce(autoReconnect, quickTimeoutMs, front, i);
      var (b, d, e) := (Before(c0, es), Run(c0, es).value, Last(es));
      ResumedOneMore(es, i);
      ReactionsAreOld(b, e);
      EventsIssueRequests(b, e);
      if i < |b.host.promises| {
        EventsMoveRequests(b, e, i);
        OldQueue(b, e, d, i);
      } else {
        NewQueue(b, e, d, i);
      }
    }
  }

  lemma NothingResumed(i: nat)
    ensures !Resumed([], i)
  {
  }

  lemma ResumedOneMore(es: seq<Event>, i: nat)
    requires es != []
    ensures Resumed(es, i) <==> Last(es) == Reaction(i) || Resumed(es[..|es| - 1], i)
  {
  }

  lemma ReactionsAreOld(c: Conn, e: Event)
    requires Inv(c) && Enabled(c, e)
    ensures e.Reaction? ==> e.id in c.host.reactions && e.id < |c.host.promises| && c.host.promises[e.id].calls != []
  {
    hide TimersOk, HeartbeatOk, FieldsOk, CallsOk, CountOk;
  }

  lemma OldQueue(c: Conn, e: Event, d: Conn, i: nat)
    requires i < |c.host.promises| && RequestMoves(c, e, d, i)
    ensures i < |d.host.promises|
    ensures d.host.promises[i].calls == [] ==> c.host.promises[i].calls == []
    ensures i in d.host.reactions <==>
              e != Reaction(i) &&
              (i in c.host.reactions || (c.host.promises[i].calls == [] && d.host.promises[i].calls != []))
  {
    hide Leaves, Loses;
  }

  lemma NewQueue(c: Conn, e: Event, d: Conn, i: nat)
    requires i >= |c.host.promises| && NewRequest(c, e, d)
    ensures i < |d.host.promises| ==> (i in d.host.reactions <==> d.host.promises[i].calls != [])
  {
    hide SendThrows, Issues, Allowance, Delayed;
  }

  // ---- pings ----

  /** An `open` leaves one ping due in 30 seconds and no pong awaited. */
  lemma OpenStartsPings(c: Conn, s: nat)
    requires Inv(c) && Enabled(c, Opened(s))
    ensures var d := Step(c, Opened(s));
            && d.pingInterval.Some? && d.pingInterval.value in d.host.timers
            && d.host.timers[d.pingInterval.value] == Timer(c.host.now + 30000, PingTick)
            && (forall t :: t in d.host.timers ==> d.host.timers[t].task != PongTimeout)
  {
    assert TimersOk(c) by { hide TimersOk; }
    hide Inv, TimersOk, StartPing, Dispatch;
    var c1 := c.(host := c.host.(sockets := c.host.sockets[s := Open]), reconnectAttempt := 0);
    FrameTimers(c, c1);
    StartPingArms(c1);
    StartPingTimers(c1);
    DispatchAddsOne(StartPing(c1), Handshake, HANDSHAKE_TIMEOUT_MS, CanSend(StartPing(c1)));
  }

  lemma StartPingArms(c: Conn)
    requires TimersOk(c)
    ensures var d := StartPing(c);
            && d.pingInterval.Some? && d.pingInterval.value in d.host.timers && d.host.now == c.host.now
            && d.host.timers[d.pingInterval.value] == Timer(c.host.now + 30000, PingTick)
            && (forall t :: t in d.host.timers ==> d.host.timers[t].task != PongTimeout)
  {
    StopPingTimers(c);
    StopPingIs(c);
    hide TimersOk, StopPing;
  }

  /** A request issued adds its own timer and leaves every other one. */
  lemma DispatchAddsOne(c: Conn, kind: Kind, timeoutMs: nat, lands: bool)
    requires TimersOk(c)
    ensures var d := Dispatch(c, kind, timeoutMs, lands);
            && c.host.nextTimer !in c.host.timers && c.host.nextTimer in d.host.timers
            && d.host.timers[c.host.nextTimer].task.RequestTimeout?
            && d.host.timers - {c.host.nextTimer} == c.host.timers
            && (forall t :: t in c.host.timers ==> t in d.host.timers && d.host.timers[t] == c.host.timers[t])
            && d.host.now == c.host.now && d.pingInterval == c.pingInterval
            && d.ws == c.ws && d.host.sockets == c.host.sockets
  {
    NextTimerIsFree(c);
    hide TimersOk, Issue, TimerDelay;
    IssueIs(c, kind, timeoutMs);
  }

  /** A tick is followed by the next in 30 seconds. Over an open socket it sends a ping, whose pong is
      awaited for 10 seconds; over no open socket it does nothing. */
  lemma TickPings(c: Conn, t: nat)
    requires Inv(c) && Enabled(c, Fired(t)) && c.host.timers[t].task == PingTick
    ensures var (d, p) := (Step(c, Fired(t)), c.host.nextTimer);
            && t in d.host.timers && d.host.timers[t] == Timer(c.host.now + 30000, PingTick)
            && (if IsConnected(c)
                then p in d.host.timers && d.host.timers[p] == Timer(c.host.now + 10000, PongTimeout)
                     && d.pongTimeout == Some(p)
                else d.host == c.host.(timers := d.host.timers) && d.host.timers.Keys == c.host.timers.Keys
                     && d.pongTimeout == c.pongTimeout)
  {
    assert TimersOk(c) by { hide TimersOk; }
    NextTimerIsFree(c);
    hide Inv, TimersOk, Issue;
    var c1 := AwaitPong(Rearmed(c, t)).(heartbeatPending := true);
    IssueIs(c1, Heartbeat, c1.quickTimeoutMs);
  }

  lemma NextTimerIsFree(c: Conn)
    requires TimersOk(c)
    ensures forall t :: t in c.host.timers ==> t < c.host.nextTimer
  {
  }

  /** A pong, whenever it comes, disarms the wait for it and does nothing else. */
  lemma PongDisarms(c: Conn, s: nat)
    requires Inv(c) && Enabled(c, Pong(s))
    ensures var d := Step(c, Pong(s));
            && d.pongTimeout == None
            && (forall t :: t in d.host.timers <==> t in c.host.timers && c.host.timers[t].task != PongTimeout)
            && (forall t :: t in d.host.timers ==> d.host.timers[t] == c.host.timers[t])
            && d == c.(host := c.host.(timers := d.host.timers), pongTimeout := None)
  {
    assert PongSole(c) && TimersOk(c) by { hide PongSole; }
    hide Inv, TimersOk;
  }

  /** The pong awaited since a ping on socket `w` is due at `due`. */
  predicate Awaited(c: Conn, w: nat, p: nat, due: nat) {
    && c.ws == Some(w) && w < |c.host.sockets| && c.host.sockets[w] == Open
    && p in c.host.timers && c.host.timers[p] == Timer(due, PongTimeout)
  }

  predicate Terminated(c: Conn, w: nat, due: nat) {
    w < |c.host.sockets| && c.host.sockets[w] == Closing && due <= c.host.now
  }

  /** No pong, no `open`, no close and no `disconnect`: nothing that ends the wait. */
  predicate Silent(e: Event) {
    !e.Pong? && !e.Opened? && !e.SocketClosed? && !e.Disconnect?
  }

  predicate AllSilent(es: seq<Event>) {
    forall i :: 0 <= i < |es| ==> Silent(es[i])
  }

  lemma SilentKeepsTimer(c: Conn, e: Event, p: nat, due: nat)
    requires Inv(c) && Enabled(c, e) && Silent(e) && e != Fired(p)
    requires p in c.host.timers && c.host.timers[p] == Timer(due, PongTimeout)
    ensures p in Step(c, e).host.timers && Step(c, e).host.timers[p] == Timer(due, PongTimeout)
  {
    InvLinks(c);
    assert TimersOk(c) by { hide TimersOk; }
    hide Inv, TimersOk;
    hide OnMessage, OnFired, OnSend;
    match e
    case Send(timeoutMs, serialises) => SendKeepsTimer(c, timeoutMs, serialises, p);
    case Delivered(_, m) => MessageKeepsTimer(c, m, p);
    case Fired(t) => FiredKeepsTimer(c, t, p);
    case _ => hide *; OtherKeepsTimers(c, e);
  }

  lemma OtherKeepsTimers(c: Conn, e: Event)
    requires Enabled(c, e) && (e.Connect? || e.SocketError? || e.Reaction? || e.Advance?)
    ensures Step(c, e).host.timers == c.host.timers
  {
    match e
    case Connect => hide OnReaction;
    case _ => hide OnConnect;
  }

  lemma SendKeepsTimer(c: Conn, timeoutMs: Option<nat>, serialises: bool, p: nat)
    requires TimersOk(c) && p in c.host.timers
    ensures var d := OnSend(c, timeoutMs, serialises); p in d.host.timers && d.host.timers[p] == c.host.timers[p]
  {
    hide TimersOk, Dispatch;
    DispatchAddsOne(c, Command, if timeoutMs.Some? then timeoutMs.value else c.quickTimeoutMs, serialises);
  }

  lemma MessageKeepsTimer(c: Conn, m: Message, p: nat)
    requires TimersOk(c) && p in c.host.timers && !c.host.timers[p].task.RequestTimeout?
    ensures var d := OnMessage(c, m); p in d.host.timers && d.host.timers[p] == c.host.timers[p]
  {
    DueOfTimers(c);
    MessageIsAnswer(c, m);
    hide TimersOk, OnMessage;
  }

  lemma FiredKeepsTimer(c: Conn, t: nat, p: nat)
    requires TimersOk(c) && Enabled(c, Fired(t)) && p in c.host.timers && p != t && c.host.timers[p].task == PongTimeout
    ensures var d := OnFired(c, t); p in d.host.timers && d.host.timers[p] == c.host.timers[p]
  {
    match c.host.timers[t].task
    case PingTick =>
      NoPongTimerAtTick(c, t);
      assert false;
    case _ => hide TimersOk;
  }

  lemma StepAwaits(c: Conn, e: Event, w: nat, p: nat, due: nat)
    requires Inv(c) && Enabled(c, e) && Silent(e) && Awaited(c, w, p, due)
    ensures Awaited(Step(c, e), w, p, due) || Terminated(Step(c, e), w, due)
  {
    StepColumns(c, e);
    hide LabelColumn, ReasonColumn, AttemptsColumn, HandshakeColumn;
    var d := Step(c, e);
    if e == Fired(p) {
      FiredAt(c, p);
      hide Inv, Step;
      assert d.host.sockets[w] == SocketMoves(c, e, w);
    } else {
      SilentKeepsTimer(c, e, p, due);
      OnlyPong(c, e, p);
      hide Inv, Step;
      assert d.host.sockets[w] == SocketMoves(c, e, w);
    }
  }

  lemma FiredAt(c: Conn, t: nat)
    requires Enabled(c, Fired(t))
    ensures c.host.timers[t].deadline == c.host.now && Step(c, Fired(t)).host.now == c.host.now
  {
    var d := OnFired(c, t);
  }

  lemma OnlyPong(c: Conn, e: Event, p: nat)
    requires Inv(c) && p in c.host.timers && c.host.timers[p].task == PongTimeout && e != Fired(p)
    ensures !FiresTask(c, e, PongTimeout)
  {
    assert PongSole(c) by { hide PongSole; }
    hide Inv;
  }

  lemma StepTerminated(c: Conn, e: Event, w: nat, due: nat)
    requires Inv(c) && Enabled(c, e) && Silent(e) && Terminated(c, w, due)
    ensures Terminated(Step(c, e), w, due)
  {
    StepColumns(c, e);
    ClockMoves(c, e);
    hide Inv, Step, LabelColumn, ReasonColumn, AttemptsColumn, HandshakeColumn;
    assert Step(c, e).host.sockets[w] == SocketMoves(c, e, w);
  }

  lemma ClockMoves(c: Conn, e: Event)
    requires Inv(c) && Enabled(c, e)
    ensures Step(c, e).host.now >= c.host.now
  {
    assert TimersOk(c) by { hide TimersOk; }
    StepMoves(c, e);
    hide Inv, Step;
  }

  lemma {:induction false} AwaitedOrTerminated(c: Conn, es: seq<Event>, w: nat, p: nat, due: nat)
    requires Inv(c) && Awaited(c, w, p, due) && Run(c, es).Some? && AllSilent(es)
    ensures var d := Run(c, es).value; Awaited(d, w, p, due) || Terminated(d, w, due)
  {
    hide Inv, Step, Enabled, Awaited, Terminated;
    if es != [] {
      var front, e := es[..|es| - 1], es[|es| - 1];
      AwaitedOrTerminated(c, front, w, p, due);
      RunOk(c, front);
      var b := Run(c, front).value;
      if Awaited(b, w, p, due) { StepAwaits(b, e, w, p, due); } else { StepTerminated(b, e, w, due); }
    }
  }

  /** A ping nobody answers terminates its socket 10 seconds after the tick, and not before: until
      then, as long as nothing else ends the wait, the client stays connected over it, and from then
      on, for as long as its close is still to come, the socket is closing. */
  lemma UnansweredPingTerminates(c: Conn, t: nat, es: seq<Event>)
    requires Inv(c) && Enabled(c, Fired(t)) && c.host.timers[t].task == PingTick && IsConnected(c)
    requires Run(Step(c, Fired(t)), es).Some? && AllSilent(es)
    ensures var (d, w) := (Run(Step(c, Fired(t)), es).value, c.ws.value);
            && w < |d.host.sockets|
            && (d.host.now < c.host.now + 10000 ==> IsConnected(d) && d.ws == Some(w))
            && (d.host.now > c.host.now + 10000 ==> d.host.sockets[w] == Closing)
  {
    TickPings(c, t);
    StepColumns(c, Fired(t));
    StepOk(c, Fired(t));
    var (w, p, due) := (c.ws.value, c.host.nextTimer, c.host.now + 10000);
    var c1 := Step(c, Fired(t));
    assert c1.host.sockets[w] == SocketMoves(c, Fired(t), w);
    hide Inv, Step, Run, LabelColumn, ReasonColumn, AttemptsColumn, HandshakeColumn;
    AwaitedOrTerminated(c1, es, w, p, due);
    RunOk(c1, es);
    NotYetDue(Run(c1, es).value, p);
  }

  lemma NotYetDue(c: Conn, p: nat)
    requires Inv(c)
    ensures p in c.host.timers ==> c.host.now <= c.host.timers[p].deadline
  {
    assert TimersLive(c.host) by { hide TimersLive; }
    hide Inv;
  }
}

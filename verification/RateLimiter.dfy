/** The logger's fixed-window rate limiter, and how much it lets through over any run. */
module RateLimiter {
  import opened Sequences

  const RATE_LIMIT_WINDOW_MS := 5000
  const MAX_MESSAGES_PER_WINDOW := 10

  datatype Window = Window(count: nat, windowStart: int)

  datatype Call = Call(key: string, now: int)

  type Windows = map<string, Window>

  // ---- one call, on values ----

  predicate Fresh(windows: Windows, call: Call) {
    call.key !in windows || call.now - windows[call.key].windowStart > RATE_LIMIT_WINDOW_MS
  }

  function Step(windows: Windows, call: Call): Windows {
    windows[call.key := if Fresh(windows, call) then Window(1, call.now)
                        else windows[call.key].(count := windows[call.key].count + 1)]
  }

  predicate Passes(windows: Windows, call: Call) {
    Fresh(windows, call) || windows[call.key].count < MAX_MESSAGES_PER_WINDOW
  }

  // ---- runs ----

  /** The clock never runs backwards. */
  predicate Ordered(calls: seq<Call>) {
    forall i, j :: 0 <= i < j < |calls| ==> calls[i].now <= calls[j].now
  }

  function After(calls: seq<Call>): Windows {
    if calls == [] then map[] else Step(After(calls[..|calls| - 1]), calls[|calls| - 1])
  }

  /** How many messages of `key` got through at times `a` to `b`. */
  function Passed(calls: seq<Call>, key: string, a: int, b: int): nat {
    if calls == [] then 0 else
    var front, call := calls[..|calls| - 1], calls[|calls| - 1];
    Passed(front, key, a, b) +
    if call.key == key && a <= call.now <= b && Passes(After(front), call) then 1 else 0
  }

  /** How many messages of `key` got through in the window that opened at `start`. */
  function PassedInWindow(calls: seq<Call>, key: string, start: int): nat {
    if calls == [] then 0 else
    var front, call := calls[..|calls| - 1], calls[|calls| - 1];
    PassedInWindow(front, key, start) +
    if call.key == key && Passes(After(front), call) && After(calls)[key].windowStart == start then 1 else 0
  }

  function Min(a: int, b: int): int {
    if a < b then a else b
  }

  class Logger {
    var rateLimitCounts: Windows
    ghost var calls: seq<Call>

    ghost predicate Valid() reads this { rateLimitCounts == After(calls) }

    constructor ()
      ensures Valid() && calls == []
    {
      rateLimitCounts := map[];
      calls := [];
    }

    /** `shouldRateLimit`: says whether to drop the message, and counts it either way. */
    method ShouldRateLimit(key: string, now: int) returns (limited: bool)
      requires Valid()
      modifies this
      ensures Valid() && calls == old(calls) + [Call(key, now)]
      ensures rateLimitCounts == Step(old(rateLimitCounts), Call(key, now))
      ensures limited <==> !Passes(old(rateLimitCounts), Call(key, now))
    {
      assert (calls + [Call(key, now)])[..|calls|] == calls;
      calls := calls + [Call(key, now)];
      if key !in rateLimitCounts || now - rateLimitCounts[key].windowStart > RATE_LIMIT_WINDOW_MS {
        rateLimitCounts := rateLimitCounts[key := Window(1, now)];
        return false;
      }
      var entry := rateLimitCounts[key];
      entry := entry.(count := entry.count + 1);
      rateLimitCounts := rateLimitCounts[key := entry];
      return entry.count > MAX_MESSAGES_PER_WINDOW;
    }
  }

  // ---- keys do not disturb each other ----

  function IsFor(key: string): Call -> bool {
    (c: Call) => c.key == key
  }

  /** A key's window and the messages it lets through depend on that key's own calls only. */
  lemma {:induction false} KeysAreIndependent(calls: seq<Call>, key: string, a: int, b: int)
    ensures var own := Filter(calls, IsFor(key));
            && (key in After(calls) <==> key in After(own))
            && (key in After(calls) ==> After(calls)[key] == After(own)[key])
            && Passed(calls, key, a, b) == Passed(own, key, a, b)
  {
    if calls != [] {
      var front, call := calls[..|calls| - 1], calls[|calls| - 1];
      var own := Filter(front, IsFor(key));
      KeysAreIndependent(front, key, a, b);
      if call.key == key {
        assert (own + [call])[..|own|] == own;
      } else {
        assert Filter(calls, IsFor(key)) == own;
      }
    }
  }

  // ---- upper bounds ----

  lemma Recent(calls: seq<Call>)
    requires Ordered(calls) && calls != []
    ensures Ordered(calls[..|calls| - 1])
    ensures forall c :: c in calls[..|calls| - 1] ==> c.now <= calls[|calls| - 1].now
  {}

  lemma {:induction false} WindowsOpenInThePast(calls: seq<Call>, key: string, now: int)
    requires (forall c :: c in calls ==> c.now <= now) && key in After(calls)
    ensures After(calls)[key].windowStart <= now && After(calls)[key].count >= 1
  {
    var front, call := calls[..|calls| - 1], calls[|calls| - 1];
    assert call in calls;
    if key in After(front) { WindowsOpenInThePast(front, key, now); }
  }

  lemma {:induction false} NothingPassedYet(calls: seq<Call>, key: string, a: int, b: int)
    requires forall c :: c in calls ==> c.now < a
    ensures Passed(calls, key, a, b) == 0
  {
    if calls != [] {
      assert calls[|calls| - 1] in calls;
      NothingPassedYet(calls[..|calls| - 1], key, a, b);
    }
  }

  /** Every window lets through at most ten messages, and exactly as many as were sent if fewer. */
  lemma {:induction false} EachWindowPassesTen(calls: seq<Call>, key: string, start: int)
    requires Ordered(calls)
    ensures PassedInWindow(calls, key, start) <= 10
    ensures key !in After(calls) || After(calls)[key].windowStart < start ==> PassedInWindow(calls, key, start) == 0
    ensures key in After(calls) && After(calls)[key].windowStart == start
            ==> PassedInWindow(calls, key, start) == Min(After(calls)[key].count, 10)
  {
    if calls != [] {
      var front, call := calls[..|calls| - 1], calls[|calls| - 1];
      Recent(calls);
      EachWindowPassesTen(front, key, start);
      if key in After(front) { WindowsOpenInThePast(front, key, call.now); }
      hide Ordered;
    }
  }

  /** What a closed interval of one window's length has seen so far, by where the key's current
      window opened. */
  ghost predicate Accounted(calls: seq<Call>, key: string, a: int) {
    var n, windows := Passed(calls, key, a, a + RATE_LIMIT_WINDOW_MS), After(calls);
    if key !in windows then n == 0
    else
      var w := windows[key];
      var sent := Min(w.count, MAX_MESSAGES_PER_WINDOW);
      if w.windowStart < a then n <= sent - 1
      else if w.windowStart <= a + RATE_LIMIT_WINDOW_MS then n <= MAX_MESSAGES_PER_WINDOW - 1 + sent
      else n <= 2 * MAX_MESSAGES_PER_WINDOW - 1
  }

  lemma {:induction false} RunsAreAccounted(calls: seq<Call>, key: string, a: int)
    requires Ordered(calls)
    ensures Accounted(calls, key, a)
  {
    if calls != [] {
      var front, call := calls[..|calls| - 1], calls[|calls| - 1];
      Recent(calls);
      RunsAreAccounted(front, key, a);
      if key in After(front) { WindowsOpenInThePast(front, key, call.now); }
      if call.now < a { NothingPassedYet(front, key, a, a + RATE_LIMIT_WINDOW_MS); }
      hide Ordered;
    }
  }

  /** No closed interval of 5000 ms ever sees more than 19 messages of one key, however the calls
      of other keys interleave. */
  lemma SlidingBound(calls: seq<Call>, key: string, a: int)
    requires Ordered(calls)
    ensures Passed(calls, key, a, a + 5000) <= 19
  {
    RunsAreAccounted(calls, key, a);
    if key in After(calls) { CountIsPositive(calls, key); }
    hide Passed, After;
  }

  lemma CountIsPositive(calls: seq<Call>, key: string)
    requires key in After(calls)
    ensures After(calls)[key].count >= 1
  {}

  // ---- and no less ----

  lemma {:induction false} CurrentWindowCounts(calls: seq<Call>, key: string, a: int, b: int)
    requires Ordered(calls) && (forall c :: c in calls ==> c.now <= b)
    requires key in After(calls) && a <= After(calls)[key].windowStart
    ensures Passed(calls, key, a, b) >= Min(After(calls)[key].count, MAX_MESSAGES_PER_WINDOW)
  {
    var front, call := calls[..|calls| - 1], calls[|calls| - 1];
    Recent(calls);
    assert call in calls;
    if key in After(front) {
      WindowsOpenInThePast(front, key, call.now);
      if a <= After(front)[key].windowStart { CurrentWindowCounts(front, key, a, b); }
    }
  }

  /** A message is dropped only if ten of its key got through within the last 5000 ms. */
  lemma DroppedOnlyWhenBusy(calls: seq<Call>, call: Call)
    requires Ordered(calls + [call]) && !Passes(After(calls), call)
    ensures Passed(calls, call.key, call.now - 5000, call.now) >= 10
  {
    assert (calls + [call])[..|calls|] == calls;
    Recent(calls + [call]);
    assert (calls + [call])[|calls|] == call;
    hide Ordered;
    CurrentWindowCounts(calls, call.key, call.now - RATE_LIMIT_WINDOW_MS, call.now);
  }

  // ---- the bound is met ----

  function Burst(key: string, now: int, n: nat): seq<Call> {
    seq(n, i => Call(key, now))
  }

  lemma OneMore(calls: seq<Call>, call: Call, key: string, a: int, b: int)
    ensures After(calls + [call]) == Step(After(calls), call)
    ensures Passed(calls + [call], key, a, b) == Passed(calls, key, a, b) +
              if call.key == key && a <= call.now <= b && Passes(After(calls), call) then 1 else 0
  {
    assert (calls + [call])[..|calls|] == calls;
  }

  /** `n` calls at one instant inside an open window. */
  lemma {:induction false} BurstCounts(calls: seq<Call>, key: string, now: int, n: nat, a: int, b: int)
    requires key in After(calls) && now - After(calls)[key].windowStart <= RATE_LIMIT_WINDOW_MS
    requires a <= now <= b
    ensures var w, all := After(calls)[key], calls + Burst(key, now, n);
            && key in After(all) && After(all)[key] == w.(count := w.count + n)
            && Passed(all, key, a, b) == Passed(calls, key, a, b)
                 + Min(w.count + n, MAX_MESSAGES_PER_WINDOW) - Min(w.count, MAX_MESSAGES_PER_WINDOW)
  {
    if n == 0 {
      assert calls + Burst(key, now, n) == calls;
    } else {
      assert Burst(key, now, n) == Burst(key, now, n - 1) + [Call(key, now)];
      hide After, Passed, Burst;
      BurstCounts(calls, key, now, n - 1, a, b);
      var most := calls + Burst(key, now, n - 1);
      assert calls + (Burst(key, now, n - 1) + [Call(key, now)]) == most + [Call(key, now)];
      OneMore(most, Call(key, now), key, a, b);
    }
  }

  /** One message at 0, nine at 5000 and ten at 5001 all get through: 19 in the last 5000 ms. */
  lemma BoundIsMet(key: string)
    ensures var calls := [Call(key, 0)] + Burst(key, 5000, 9) + [Call(key, 5001)] + Burst(key, 5001, 9);
            Ordered(calls) && Passed(calls, key, 1, 5001) == 19
  {
    var first := [Call(key, 0)];
    assert first[..0] == [];
    var second := first + Burst(key, 5000, 9);
    BurstCounts(first, key, 5000, 9, 1, 5001);
    var third := second + [Call(key, 5001)];
    assert third[..|second|] == second;
    BurstCounts(third, key, 5001, 9, 1, 5001);
  }
}

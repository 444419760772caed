/** Per-field summaries of a watch window: one list of samples in, one summary out. */
module WatchFields {
  import opened Arithmetic

  datatype Sample<V> = Sample(t: int, value: V)

  datatype Change<V> = Change(t: int, from: V, to: V)

  datatype Kind = SignChange | ZeroCross

  datatype NumericEvent = NumericEvent(change: Change<real>, kind: Kind)

  datatype StringSummary = StringSummary(start: string, end: string, changes: seq<Change<string>>)

  datatype NumericSummary = NumericSummary(
    start: real, end: real, min: real, max: real, mean: real, slope: real, events: seq<NumericEvent>)

  /** A clock that never runs backwards between samples. */
  predicate InTimeOrder<V>(samples: seq<Sample<V>>) {
    forall i, j :: 0 <= i < j < |samples| ==> samples[i].t <= samples[j].t
  }

  // ---- string fields ----

  function ChangesOf(samples: seq<Sample<string>>): seq<Change<string>> {
    var n := |samples| - 1;
    if n < 1 then [] else
    var prev, curr := samples[n - 1], samples[n];
    ChangesOf(samples[..n]) + if prev.value != curr.value then [Change(curr.t, prev.value, curr.value)] else []
  }

  function SummaryOfStrings(samples: seq<Sample<string>>): StringSummary {
    if samples == [] then StringSummary("", "", [])
    else StringSummary(samples[0].value, samples[|samples| - 1].value, ChangesOf(samples))
  }

  /** `summarizeStringField`. */
  method SummarizeStringField(samples: seq<Sample<string>>) returns (summary: StringSummary)
    ensures summary == SummaryOfStrings(samples)
  {
    if |samples| == 0 { return StringSummary("", "", []); }
    var first, last := samples[0].value, samples[|samples| - 1].value;
    var changes := [];
    for i := 1 to |samples|
      invariant changes == ChangesOf(samples[..i])
    {
      var prev, curr := samples[i - 1].value, samples[i].value;
      if prev != curr {
        changes := changes + [Change(samples[i].t, prev, curr)];
      }
      assert samples[..i + 1][..i] == samples[..i];
    }
    assert samples[..|samples|] == samples;
    return StringSummary(first, last, changes);
  }

  /** The value in force at time `t`, read off a start value and a list of changes alone. */
  function ValueAt<V>(start: V, changes: seq<Change<V>>, t: int): V {
    var n := |changes| - 1;
    if n < 0 then start
    else if changes[n].t <= t then changes[n].to
    else ValueAt(start, changes[..n], t)
  }

  /** Sample `k` is not the first and differs from the one before. */
  predicate Differs(samples: seq<Sample<string>>, k: nat) {
    0 < k < |samples| && samples[k - 1].value != samples[k].value
  }

  /** The differences up to sample `s` happen by time `t`, and the later ones after it. */
  predicate SplitsChanges(samples: seq<Sample<string>>, s: nat, t: int) {
    forall k :: 0 <= k < |samples| && Differs(samples, k) ==> (samples[k].t <= t <==> k <= s)
  }

  /** The summary is lossless: at any instant that splits the differences at sample `s`, the start
      value and the changes give back exactly what sample `s` recorded. If the clock never runs
      backwards, that is any instant from sample `s` up to the next one. */
  lemma {:induction false} ChangesRebuildSamples(samples: seq<Sample<string>>, s: nat, t: int)
    requires s < |samples|
    ensures SplitsChanges(samples, s, t) ==> ValueAt(samples[0].value, ChangesOf(samples), t) == samples[s].value
    ensures InTimeOrder(samples) && samples[s].t <= t && (s + 1 < |samples| ==> t < samples[s + 1].t) ==>
              SplitsChanges(samples, s, t)
  {
    var n := |samples| - 1;
    if n > 0 && SplitsChanges(samples, s, t) {
      var front := samples[..n];
      SplitsBefore(samples, s, t);
      hide SplitsChanges, InTimeOrder;
      ChangesRebuildSamples(front, if s < n then s else n - 1, t);
      ChangesOneMore(samples);
      hide ChangesOf, ValueAt;
      if samples[n - 1].value != samples[n].value {
        ValueAtOneMore(samples[0].value, ChangesOf(front), Difference(samples[n - 1], samples[n])[0], t);
      } else {
        assert ChangesOf(samples) == ChangesOf(front);
      }
    }
  }

  lemma SplitsBefore(samples: seq<Sample<string>>, s: nat, t: int)
    requires |samples| > 1 && s < |samples| && SplitsChanges(samples, s, t)
    ensures var n := |samples| - 1;
            && SplitsChanges(samples[..n], if s < n then s else n - 1, t)
            && (samples[n - 1].value != samples[n].value ==> (samples[n].t <= t <==> s == n))
  {
    var n := |samples| - 1;
    assert samples[n - 1].value != samples[n].value ==> Differs(samples, n);
    forall k | 0 <= k < n ensures Differs(samples[..n], k) <==> Differs(samples, k) {}
  }

  lemma ValueAtOneMore<V>(start: V, changes: seq<Change<V>>, change: Change<V>, t: int)
    ensures ValueAt(start, changes + [change], t)
            == if change.t <= t then change.to else ValueAt(start, changes, t)
  {
    assert (changes + [change])[..|changes|] == changes;
  }

  /** The changes lead from start to end without a gap, none of them idle. */
  predicate Chained<V(==)>(start: V, changes: seq<Change<V>>, end: V) {
    && (forall i :: 0 <= i < |changes| ==> changes[i].from != changes[i].to)
    && (forall i :: 0 < i < |changes| ==> changes[i].from == changes[i - 1].to)
    && (if changes == [] then start == end
        else changes[0].from == start && changes[|changes| - 1].to == end)
  }

  lemma {:induction false} ChangesAreChained(samples: seq<Sample<string>>)
    requires samples != []
    ensures var s := SummaryOfStrings(samples); Chained(s.start, s.changes, s.end)
  {
    if |samples| > 1 {
      ChangesAreChained(samples[..|samples| - 1]);
    }
  }

  /** What a step from one sample to the next adds. */
  function Difference(prev: Sample<string>, curr: Sample<string>): seq<Change<string>> {
    if prev.value != curr.value then [Change(curr.t, prev.value, curr.value)] else []
  }

  lemma ChangesOneMore(samples: seq<Sample<string>>)
    requires |samples| > 1
    ensures var n := |samples| - 1;
            ChangesOf(samples) == ChangesOf(samples[..n]) + Difference(samples[n - 1], samples[n])
  {}

  /** `at` lists, in order, exactly the samples that differ from the one before. */
  ghost predicate Lists(samples: seq<Sample<string>>, at: seq<nat>) {
    && (forall i, j :: 0 <= i < j < |at| ==> at[i] < at[j])
    && (forall j :: 0 <= j < |at| ==> Differs(samples, at[j]))
    && (forall k: nat :: Differs(samples, k) ==> k in at)
  }

  /** The changes are those of the listed samples, from the one before. */
  predicate ChangesAt(samples: seq<Sample<string>>, at: seq<nat>, changes: seq<Change<string>>) {
    && |changes| == |at|
    && forall j :: 0 <= j < |at| ==>
         && 0 < at[j] < |samples|
         && changes[j] == Change(samples[at[j]].t, samples[at[j] - 1].value, samples[at[j]].value)
  }

  /** One change per difference between neighbours, at the later one's time, in their order. */
  lemma {:induction false} ChangesAreTheDifferences(samples: seq<Sample<string>>) returns (at: seq<nat>)
    ensures Lists(samples, at) && ChangesAt(samples, at, ChangesOf(samples))
  {
    at := [];
    if |samples| > 1 {
      var n := |samples| - 1;
      ChangesOneMore(samples);
      hide ChangesOf, Lists, ChangesAt;
      var front := ChangesAreTheDifferences(samples[..n]);
      ListsOneMore(samples, front);
      ChangesAtOneMore(samples, front, ChangesOf(samples[..n]));
      at := front + if Differs(samples, n) then [n] else [];
    }
  }

  lemma ListsOneMore(samples: seq<Sample<string>>, front: seq<nat>)
    requires |samples| > 1 && Lists(samples[..|samples| - 1], front)
    ensures Lists(samples, front + if Differs(samples, |samples| - 1) then [|samples| - 1] else [])
  {
    var n := |samples| - 1;
    forall k: nat | k < n ensures Differs(samples[..n], k) <==> Differs(samples, k) {}
    assert forall k: nat :: Differs(samples, k) ==> k <= n;
    assert forall k: nat :: Differs(samples[..n], k) ==> k < n;
    hide Differs;
    forall k: nat | Differs(samples, k) && k < n ensures k in front { assert Differs(samples[..n], k); }
  }

  lemma ChangesAtOneMore(samples: seq<Sample<string>>, front: seq<nat>, changes: seq<Change<string>>)
    requires |samples| > 1 && ChangesAt(samples[..|samples| - 1], front, changes)
    ensures var n := |samples| - 1;
            ChangesAt(samples, front + if Differs(samples, n) then [n] else [],
                      changes + Difference(samples[n - 1], samples[n]))
  {}

  /** So they are in time order if the samples are. */
  lemma ChangesAreInOrder(samples: seq<Sample<string>>)
    requires InTimeOrder(samples)
    ensures forall i, j :: 0 <= i < j < |ChangesOf(samples)| ==> ChangesOf(samples)[i].t <= ChangesOf(samples)[j].t
  {
    var at := ChangesAreTheDifferences(samples);
    hide ChangesOf;
    forall i, j | 0 <= i < j < |ChangesOf(samples)|
      ensures ChangesOf(samples)[i].t <= ChangesOf(samples)[j].t
    {
      assert at[i] < at[j];
    }
  }

  // ---- numeric fields ----

  function Sign(x: real): int {
    if x > 0.0 then 1 else if x < 0.0 then -1 else 0
  }

  /** What a step from one sample to the next reports. */
  function Noted(prev: Sample<real>, curr: Sample<real>): seq<NumericEvent> {
    var change := Change(curr.t, prev.value, curr.value);
    if prev.value == 0.0 && curr.value != 0.0 then [NumericEvent(change, ZeroCross)]
    else if Sign(prev.value) * Sign(curr.value) == -1 then [NumericEvent(change, SignChange)]
    else []
  }

  function EventsOf(samples: seq<Sample<real>>): seq<NumericEvent> {
    var n := |samples| - 1;
    if n < 1 then [] else EventsOf(samples[..n]) + Noted(samples[n - 1], samples[n])
  }

  function Values(samples: seq<Sample<real>>): seq<real> {
    seq(|samples|, i requires 0 <= i < |samples| => samples[i].value)
  }

  /** `Math.min(...values)`. */
  function Min(values: seq<real>): (m: real)
    requires values != []
    ensures m in values && forall i :: 0 <= i < |values| ==> m <= values[i]
  {
    var n := |values| - 1;
    if n == 0 then values[0] else
    var m := Min(values[..n]);
    if values[n] < m then values[n] else m
  }

  /** `Math.max(...values)`. */
  function Max(values: seq<real>): (m: real)
    requires values != []
    ensures m in values && forall i :: 0 <= i < |values| ==> values[i] <= m
  {
    var n := |values| - 1;
    if n == 0 then values[0] else
    var m := Max(values[..n]);
    if values[n] > m then values[n] else m
  }

  function SummaryOfNumbers(samples: seq<Sample<real>>, windowMs: real): NumericSummary {
    if samples == [] then NumericSummary(0.0, 0.0, 0.0, 0.0, 0.0, 0.0, []) else
    var values := Values(samples);
    var first, last := values[0], values[|values| - 1];
    NumericSummary(first, last, Min(values), Max(values),
                   RoundCents(Sum(values) / |values| as real),
                   if windowMs > 0.0 then RoundCents((last - first) / (windowMs / 1000.0)) else 0.0,
                   EventsOf(samples))
  }

  /** `summarizeNumericField`. */
  method SummarizeNumericField(samples: seq<Sample<real>>, windowMs: real) returns (summary: NumericSummary)
    ensures summary == SummaryOfNumbers(samples, windowMs)
  {
    if |samples| == 0 { return NumericSummary(0.0, 0.0, 0.0, 0.0, 0.0, 0.0, []); }
    var values := Values(samples);
    var first, last := values[0], values[|values| - 1];
    var mean := RoundCents(Sum(values) / |values| as real);
    var slope := if windowMs > 0.0 then RoundCents((last - first) / (windowMs / 1000.0)) else 0.0;
    var events := [];
    for i := 1 to |samples|
      invariant events == EventsOf(samples[..i])
    {
      var prev, curr := samples[i - 1].value, samples[i].value;
      if prev == 0.0 && curr != 0.0 {
        events := events + [NumericEvent(Change(samples[i].t, prev, curr), ZeroCross)];
      } else if (prev < 0.0 && curr > 0.0) || (prev > 0.0 && curr < 0.0) {
        events := events + [NumericEvent(Change(samples[i].t, prev, curr), SignChange)];
      }
      assert samples[..i + 1][..i] == samples[..i];
    }
    assert samples[..|samples|] == samples;
    return NumericSummary(first, last, Min(values), Max(values), mean, slope, events);
  }

  /** The numbers of a summary, from the samples alone: the ends, the extremes, the mean to the nearest
      hundredth, and the change per second to the nearest hundredth, with its sign. */
  lemma NumericSummaryIs(samples: seq<Sample<real>>, windowMs: real)
    requires samples != []
    ensures var (s, n) := (SummaryOfNumbers(samples, windowMs), |samples|);
            && s.start == samples[0].value && s.end == samples[n - 1].value
            && (forall i :: 0 <= i < n ==> s.min <= samples[i].value <= s.max)
            && (exists i :: 0 <= i < n && samples[i].value == s.min)
            && (exists i :: 0 <= i < n && samples[i].value == s.max)
            && -0.005 < s.mean - Sum(Values(samples)) / n as real <= 0.005
    ensures var (s, change) := (SummaryOfNumbers(samples, windowMs), samples[|samples| - 1].value - samples[0].value);
            if windowMs > 0.0 then
              && -0.005 < s.slope - change / (windowMs / 1000.0) <= 0.005
              && (change >= 0.0 ==> s.slope >= 0.0) && (change <= 0.0 ==> s.slope <= 0.0)
            else s.slope == 0.0
  {
    hide Sum, RoundCents, Min, Max;
    var values := Values(samples);
    ExtremesAreReached(samples);
    RoundCentsIsClose(Sum(values) / |values| as real);
    if windowMs > 0.0 { SlopeIs(values[|values| - 1] - values[0], windowMs); }
  }

  lemma ExtremesAreReached(samples: seq<Sample<real>>)
    requires samples != []
    ensures var (low, high) := (Min(Values(samples)), Max(Values(samples)));
            && (forall i :: 0 <= i < |samples| ==> low <= samples[i].value <= high)
            && (exists i :: 0 <= i < |samples| && samples[i].value == low)
            && (exists i :: 0 <= i < |samples| && samples[i].value == high)
  {
    var values := Values(samples);
    forall i | 0 <= i < |samples| ensures values[i] == samples[i].value {}
    var (low, high) := (Min(values), Max(values));
    hide Min, Max;
    var i :| 0 <= i < |values| && values[i] == low;
    var j :| 0 <= j < |values| && values[j] == high;
    assert samples[i].value == low && samples[j].value == high;
  }

  lemma SlopeIs(change: real, windowMs: real)
    requires windowMs > 0.0
    ensures var (slope, seconds) := (RoundCents(change / (windowMs / 1000.0)), windowMs / 1000.0);
            && -0.005 < slope - change / seconds <= 0.005
            && (change >= 0.0 ==> slope >= 0.0) && (change <= 0.0 ==> slope <= 0.0)
  {
    hide RoundCents;
    QuotientSign(change, windowMs / 1000.0);
    RoundCentsIsClose(change / (windowMs / 1000.0));
    RoundCentsKeepsSign(change / (windowMs / 1000.0));
  }

  lemma QuotientSign(x: real, y: real)
    requires y > 0.0
    ensures x >= 0.0 ==> x / y >= 0.0
    ensures x <= 0.0 ==> x / y <= 0.0
  {}

  /** A value leaves zero, or jumps across it. */
  predicate Crosses(prev: real, curr: real) {
    (prev == 0.0 && curr != 0.0) || (prev < 0.0 && curr > 0.0) || (prev > 0.0 && curr < 0.0)
  }

  predicate CrossesAt(samples: seq<Sample<real>>, k: nat) {
    0 < k < |samples| && Crosses(samples[k - 1].value, samples[k].value)
  }

  /** `at` lists, in order, exactly the samples at which the value leaves zero or jumps across it. */
  ghost predicate ListsCrossings(samples: seq<Sample<real>>, at: seq<nat>) {
    && (forall i, j :: 0 <= i < j < |at| ==> at[i] < at[j])
    && (forall j :: 0 <= j < |at| ==> CrossesAt(samples, at[j]))
    && (forall k: nat :: CrossesAt(samples, k) ==> k in at)
  }

  /** Each event has the time and both values of its crossing, and says which kind it is. */
  predicate EventsAt(samples: seq<Sample<real>>, at: seq<nat>, events: seq<NumericEvent>) {
    && |events| == |at|
    && forall j :: 0 <= j < |at| ==>
         && 0 < at[j] < |samples|
         && events[j].change == Change(samples[at[j]].t, samples[at[j] - 1].value, samples[at[j]].value)
         && (events[j].kind == ZeroCross <==> samples[at[j] - 1].value == 0.0)
  }

  /** One event per crossing, in their order. */
  lemma {:induction false} EventsAreTheCrossings(samples: seq<Sample<real>>) returns (at: seq<nat>)
    ensures ListsCrossings(samples, at) && EventsAt(samples, at, EventsOf(samples))
  {
    at := [];
    if |samples| > 1 {
      var n := |samples| - 1;
      EventsOneMore(samples);
      hide EventsOf, ListsCrossings, EventsAt;
      var front := EventsAreTheCrossings(samples[..n]);
      CrossingsOneMore(samples, front);
      EventsAtOneMore(samples, front, EventsOf(samples[..n]));
      at := front + if CrossesAt(samples, n) then [n] else [];
    }
  }

  lemma CrossingsOneMore(samples: seq<Sample<real>>, front: seq<nat>)
    requires |samples| > 1 && ListsCrossings(samples[..|samples| - 1], front)
    ensures ListsCrossings(samples, front + if CrossesAt(samples, |samples| - 1) then [|samples| - 1] else [])
  {
    var n := |samples| - 1;
    forall k: nat | k < n ensures CrossesAt(samples[..n], k) <==> CrossesAt(samples, k) {}
    assert forall k: nat :: CrossesAt(samples, k) ==> k <= n;
    assert forall k: nat :: CrossesAt(samples[..n], k) ==> k < n;
    hide CrossesAt;
    forall k: nat | CrossesAt(samples, k) && k < n ensures k in front { assert CrossesAt(samples[..n], k); }
  }

  lemma EventsAtOneMore(samples: seq<Sample<real>>, front: seq<nat>, events: seq<NumericEvent>)
    requires |samples| > 1 && EventsAt(samples[..|samples| - 1], front, events)
    ensures var n := |samples| - 1;
            EventsAt(samples, front + (if CrossesAt(samples, n) then [n] else []),
                     events + Noted(samples[n - 1], samples[n]))
  {
    CrossingIsNoted(samples[|samples| - 2], samples[|samples| - 1]);
    hide Noted;
  }

  lemma CrossingIsNoted(prev: Sample<real>, curr: Sample<real>)
    ensures var events := Noted(prev, curr);
            if Crosses(prev.value, curr.value) then
              && |events| == 1 && events[0].change == Change(curr.t, prev.value, curr.value)
              && (events[0].kind == ZeroCross <==> prev.value == 0.0)
            else events == []
  {}

  /** A run of one nonzero sign up to `m`, then zeros only. */
  predicate SettlesAt(samples: seq<Sample<real>>, m: nat)
    requires m <= |samples|
  {
    && (forall i :: 0 <= i < m ==> Sign(samples[i].value) == Sign(samples[0].value) != 0)
    && (forall i :: m <= i < |samples| ==> samples[i].value == 0.0)
  }

  ghost predicate Settles(samples: seq<Sample<real>>) {
    exists m: nat :: m <= |samples| && SettlesAt(samples, m)
  }

  /** No event means, and only means, one nonzero sign that may fall to zero for good. */
  lemma {:induction false} NoEventsIffSettles(samples: seq<Sample<real>>)
    ensures EventsOf(samples) == [] <==> Settles(samples)
  {
    var n := |samples| - 1;
    if n < 1 {
      assert SettlesAt(samples, if n == 0 && samples[0].value != 0.0 then 1 else 0);
    } else {
      NoEventsIffSettles(samples[..n]);
      hide EventsOf, Settles;
      EventsOneMore(samples);
      SettlesOneMore(samples);
    }
  }

  lemma EventsOneMore(samples: seq<Sample<real>>)
    requires |samples| > 1
    ensures var n := |samples| - 1;
            EventsOf(samples) == EventsOf(samples[..n]) + Noted(samples[n - 1], samples[n])
  {}

  lemma SettlesOneMore(samples: seq<Sample<real>>)
    requires |samples| > 1
    ensures var n := |samples| - 1;
            Settles(samples) <==> Settles(samples[..n]) && Noted(samples[n - 1], samples[n]) == []
  {
    var n := |samples| - 1;
    var front := samples[..n];
    if Settles(samples) {
      var m: nat :| m <= n + 1 && SettlesAt(samples, m);
      assert SettlesAt(front, if m <= n then m else n);
      StepSettles(samples, m);
    }
    if Settles(front) && Noted(samples[n - 1], samples[n]) == [] {
      var m: nat :| m <= n && SettlesAt(front, m);
      assert samples[n - 1] == front[n - 1];
      StepStays(samples, m);
    }
  }

  lemma StepSettles(samples: seq<Sample<real>>, m: nat)
    requires |samples| > 1 && m <= |samples| && SettlesAt(samples, m)
    ensures Noted(samples[|samples| - 2], samples[|samples| - 1]) == []
  {}

  lemma StepStays(samples: seq<Sample<real>>, m: nat)
    requires |samples| > 1 && m < |samples| && SettlesAt(samples[..|samples| - 1], m)
    requires Noted(samples[|samples| - 2], samples[|samples| - 1]) == []
    ensures Settles(samples)
  {
    var n := |samples| - 1;
    var front := samples[..n];
    forall i | 0 <= i < n ensures samples[i] == front[i] {}
    if samples[n].value == 0.0 {
      assert SettlesAt(samples, m);
    } else {
      assert m == n;
      assert SettlesAt(samples, n + 1);
    }
  }

  /** The sign in force at `t`, read off the first sample and the events alone. */
  function SignAt(start: real, events: seq<NumericEvent>, t: int): int {
    var n := |events| - 1;
    if n < 0 then Sign(start)
    else if events[n].change.t <= t then Sign(events[n].change.to)
    else SignAt(start, events[..n], t)
  }

  /** The step to sample `k` is an event. */
  predicate IsEvent(samples: seq<Sample<real>>, k: nat) {
    0 < k < |samples| && Noted(samples[k - 1], samples[k]) != []
  }

  /** The events up to sample `s` happen by time `t`, and the later ones after it. */
  predicate SplitsEvents(samples: seq<Sample<real>>, s: nat, t: int) {
    forall k :: 0 <= k < |samples| && IsEvent(samples, k) ==> (samples[k].t <= t <==> k <= s)
  }

  /** Start and events give back the sign of every nonzero sample, at any instant that splits the
      events there; if the clock never runs backwards, that is from that sample up to the next one. */
  lemma {:induction false} EventsRebuildSigns(samples: seq<Sample<real>>, s: nat, t: int)
    requires s < |samples| && samples[s].value != 0.0
    ensures SplitsEvents(samples, s, t) ==> SignAt(samples[0].value, EventsOf(samples), t) == Sign(samples[s].value)
    ensures InTimeOrder(samples) && samples[s].t <= t && (s + 1 < |samples| ==> t < samples[s + 1].t) ==>
              SplitsEvents(samples, s, t)
  {
    hide Noted, Sign, SignAt;
    var n := |samples| - 1;
    if n == 0 {
      assert EventsOf(samples) == [];
      SignAtStart(samples[0].value, t);
    } else if SplitsEvents(samples, s, t) {
      var front, rest := samples[..n], EventsOf(samples[..n]);
      EventsOneMore(samples);
      SplitsEventsBefore(samples, s, t);
      hide EventsOf, SplitsEvents, InTimeOrder;
      if Noted(samples[n - 1], samples[n]) == [] {
        assert EventsOf(samples) == rest;
        QuietStep(samples[n - 1], samples[n]);
        EventsRebuildSigns(front, if s < n then s else n - 1, t);
      } else {
        NotedIsTheStep(samples[n - 1], samples[n]);
        var e := Noted(samples[n - 1], samples[n])[0];
        assert EventsOf(samples) == rest + [e];
        SignAtOneMore(samples[0].value, rest, e, t);
        if s < n { EventsRebuildSigns(front, s, t); }
      }
    }
  }

  lemma SplitsEventsBefore(samples: seq<Sample<real>>, s: nat, t: int)
    requires |samples| > 1 && s < |samples| && SplitsEvents(samples, s, t)
    ensures var n := |samples| - 1;
            && SplitsEvents(samples[..n], if s < n then s else n - 1, t)
            && (Noted(samples[n - 1], samples[n]) != [] ==> (samples[n].t <= t <==> s == n))
  {
    hide Noted;
    var n := |samples| - 1;
    assert Noted(samples[n - 1], samples[n]) != [] ==> IsEvent(samples, n);
    forall k | 0 <= k < n ensures IsEvent(samples[..n], k) <==> IsEvent(samples, k) {}
  }

  lemma QuietStep(prev: Sample<real>, curr: Sample<real>)
    requires Noted(prev, curr) == []
    ensures curr.value != 0.0 ==> prev.value != 0.0 && Sign(prev.value) == Sign(curr.value)
  {}

  lemma NotedIsTheStep(prev: Sample<real>, curr: Sample<real>)
    requires Noted(prev, curr) != []
    ensures |Noted(prev, curr)| == 1 && Noted(prev, curr)[0].change == Change(curr.t, prev.value, curr.value)
  {}

  lemma SignAtStart(start: real, t: int)
    ensures SignAt(start, [], t) == Sign(start)
  {}

  lemma SignAtOneMore(start: real, events: seq<NumericEvent>, e: NumericEvent, t: int)
    ensures SignAt(start, events + [e], t)
            == if e.change.t <= t then Sign(e.change.to) else SignAt(start, events, t)
  {
    assert (events + [e])[..|events|] == events;
  }

  /** Without a zero sample, the ends differ in sign exactly when the events are odd in number,
      and every event is a sign change. */
  lemma {:induction false} OddEventsIffSignFlips(samples: seq<Sample<real>>)
    requires samples != [] && forall i :: 0 <= i < |samples| ==> samples[i].value != 0.0
    ensures var s, events := SummaryOfNumbers(samples, 0.0), EventsOf(samples);
            && (Sign(s.start) != Sign(s.end) <==> |events| % 2 == 1)
            && (forall i :: 0 <= i < |events| ==> events[i].kind == SignChange)
  {
    hide Min, Max, Sum, RoundCents;
    OddEvents(samples);
  }

  lemma {:induction false} OddEvents(samples: seq<Sample<real>>)
    requires samples != [] && forall i :: 0 <= i < |samples| ==> samples[i].value != 0.0
    ensures var events := EventsOf(samples);
            && (Sign(samples[0].value) != Sign(samples[|samples| - 1].value) <==> |events| % 2 == 1)
            && (forall i :: 0 <= i < |events| ==> events[i].kind == SignChange)
  {
    hide Noted, Sign;
    if |samples| > 1 {
      var n := |samples| - 1;
      OddEvents(samples[..n]);
      EventsOneMore(samples);
      hide EventsOf;
      NonzeroStep(samples[0].value, samples[n - 1], samples[n]);
    }
  }

  lemma NonzeroStep(first: real, prev: Sample<real>, curr: Sample<real>)
    requires first != 0.0 && prev.value != 0.0 && curr.value != 0.0
    ensures |Noted(prev, curr)| == if Sign(prev.value) != Sign(curr.value) then 1 else 0
    ensures forall e :: e in Noted(prev, curr) ==> e.kind == SignChange
    ensures Sign(first) != Sign(curr.value) <==>
            (Sign(first) != Sign(prev.value)) != (Sign(prev.value) != Sign(curr.value))
  {}

  /** The reported mean is within half a hundredth of the range, and no closer bound holds. */
  lemma MeanNearRange(samples: seq<Sample<real>>, windowMs: real)
    requires samples != []
    ensures var s := SummaryOfNumbers(samples, windowMs); s.min - 0.005 <= s.mean <= s.max + 0.005
  {
    hide Sum, RoundCents;
    var values := Values(samples);
    MeanWithin(values, Min(values), Max(values));
    RoundCentsIsClose(Sum(values) / |values| as real);
  }

  /** The reported mean is in the range of the samples if and only if the true mean is less than half
      a hundredth above the last whole hundredth under the maximum, and no more than half a hundredth
      below the first one over the minimum; so always, when the extremes are whole hundredths. */
  lemma MeanInRangeIff(samples: seq<Sample<real>>, windowMs: real)
    requires samples != []
    ensures var s, mean := SummaryOfNumbers(samples, windowMs), Sum(Values(samples)) / |samples| as real;
            && (s.mean <= s.max <==> mean < FloorCents(s.max) + 0.005)
            && (s.min <= s.mean <==> CeilCents(s.min) - 0.005 <= mean)
            && (FloorCents(s.max) == s.max && CeilCents(s.min) == s.min ==> s.min <= s.mean <= s.max)
  {
    hide Sum, RoundCents, FloorCents, CeilCents;
    var values := Values(samples);
    MeanWithin(values, Min(values), Max(values));
    RoundCentsAtMostIff(Sum(values) / |values| as real, Max(values));
    RoundCentsAtLeastIff(Sum(values) / |values| as real, Min(values));
  }

  /** A single sample of 0.005 has mean 0.01: above its maximum by exactly the bound. */
  lemma MeanLeavesRange()
    ensures var s := SummaryOfNumbers([Sample(0, 0.005)], 16.0);
            s.mean == 0.01 && s.mean == s.max + 0.005
  {
    var values := Values([Sample(0, 0.005)]);
    assert values == [0.005] && values[..0] == [];
    assert Sum(values) == 0.005;
  }
}

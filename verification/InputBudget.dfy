/** Input timelines: what goes on the wire, and why no accepted timeline outlives its deadlines. */
module InputBudget {
  import opened Options
  import opened Timeouts

  datatype Button = Named(name: string) | Raw(index: nat)

  datatype Input =
    | Action(actionName: string, strength: Option<real>)
    | JoyButton(button: Button, device: nat)
    | Axis(axis: string, value: real, device: nat)
    | Stick(stick: string, x: real, y: real, device: nat)
    | Key(key: string, physical: Option<bool>)
    | Look(dx: real, dy: real)
    | MouseMove(toX: real, toY: real)
    | MouseButton(atX: real, atY: real, mouseButton: string)

  /** One timeline entry after validation, which has filled in the defaults. */
  datatype Entry = Entry(input: Input, startMs: nat, durationMs: nat)

  function End(e: Entry): nat {
    e.startMs + e.durationMs
  }

  // ---- compiling ----

  /** A stick is shorthand for its two axes; everything else goes out as it came in. */
  function CompileOne(e: Entry): seq<Entry> {
    match e.input
    case Stick(stick, x, y, device) =>
      [Entry(Axis(stick + "_x", x, device), e.startMs, e.durationMs),
       Entry(Axis(stick + "_y", y, device), e.startMs, e.durationMs)]
    case _ => [e]
  }

  function Compile(inputs: seq<Entry>): seq<Entry> {
    if inputs == [] then [] else Compile(inputs[..|inputs| - 1]) + CompileOne(inputs[|inputs| - 1])
  }

  /** `compileInputEntries`. */
  method CompileInputEntries(inputs: seq<Entry>) returns (wire: seq<Entry>)
    ensures wire == Compile(inputs)
  {
    wire := [];
    for i := 0 to |inputs|
      invariant wire == Compile(inputs[..i])
    {
      var e := inputs[i];
      assert inputs[..i + 1][..i] == inputs[..i];
      if e.input.Stick? {
        wire := wire + [Entry(Axis(e.input.stick + "_x", e.input.x, e.input.device), e.startMs, e.durationMs)];
        wire := wire + [Entry(Axis(e.input.stick + "_y", e.input.y, e.input.device), e.startMs, e.durationMs)];
      } else {
        wire := wire + [e];
      }
    }
    assert inputs[..|inputs|] == inputs;
  }

  /** Where entry `i` starts on the wire. */
  function Slot(inputs: seq<Entry>, i: nat): nat
    requires i <= |inputs|
  {
    |Compile(inputs[..i])|
  }

  /** Entries keep their order and their place: entry `i` occupies exactly the wire from its slot
      to the next entry's. */
  lemma {:induction false} EntriesKeepTheirPlace(inputs: seq<Entry>, i: nat)
    requires i < |inputs|
    ensures Slot(inputs, i) < Slot(inputs, i + 1) <= |Compile(inputs)|
    ensures Compile(inputs)[Slot(inputs, i)..Slot(inputs, i + 1)] == CompileOne(inputs[i])
  {
    hide Compile, CompileOne;
    var n := |inputs| - 1;
    CompileOneMore(inputs);
    if i < n {
      EntriesKeepTheirPlace(inputs[..n], i);
      SlotsOfFront(inputs, i);
    } else {
      assert inputs[..i + 1] == inputs;
    }
    hide Slot;
    InFront(Compile(inputs[..n]), CompileOne(inputs[n]), Slot(inputs, i), Slot(inputs, i + 1), i < n);
  }

  lemma SlotsOfFront(inputs: seq<Entry>, i: nat)
    requires i < |inputs| - 1
    ensures var front := inputs[..|inputs| - 1];
            Slot(front, i) == Slot(inputs, i) && Slot(front, i + 1) == Slot(inputs, i + 1)
  {
    hide Compile;
    var front := inputs[..|inputs| - 1];
    assert front[..i] == inputs[..i] && front[..i + 1] == inputs[..i + 1];
  }

  lemma InFront(front: seq<Entry>, last: seq<Entry>, from: nat, to: nat, inside: bool)
    requires from <= to <= |front + last|
    requires if inside then to <= |front| else from == |front| && to == |front + last|
    ensures (front + last)[from..to] == if inside then front[from..to] else last
  {}

  lemma CompileOneMore(inputs: seq<Entry>)
    requires inputs != []
    ensures var n := |inputs| - 1;
            Compile(inputs) == Compile(inputs[..n]) + CompileOne(inputs[n]) && |CompileOne(inputs[n])| > 0
  {}

  /** On the wire no stick is left; each entry stems from one input with the same timing, and a
      stick's two entries are its x axis, then its y axis, on its own device. */
  lemma {:induction false} WireEntriesStemFromInputs(inputs: seq<Entry>, k: nat) returns (i: nat)
    requires k < |Compile(inputs)|
    ensures i < |inputs| && Slot(inputs, i) <= k < Slot(inputs, i + 1)
    ensures var e, w := inputs[i], Compile(inputs)[k];
            && !w.input.Stick? && w.startMs == e.startMs && w.durationMs == e.durationMs
            && (if !e.input.Stick? then w == e
                else if k == Slot(inputs, i) then w.input == Axis(e.input.stick + "_x", e.input.x, e.input.device)
                else k == Slot(inputs, i) + 1
                     && w.input == Axis(e.input.stick + "_y", e.input.y, e.input.device))
  {
    var n := |inputs| - 1;
    var front := inputs[..n];
    if k < |Compile(front)| {
      i := WireEntriesStemFromInputs(front, k);
      assert front[..i] == inputs[..i] && front[..i + 1] == inputs[..i + 1];
    } else {
      i := n;
      assert inputs[..n + 1] == inputs;
    }
  }

  // ---- the budget ----

  function Max(a: nat, b: nat): nat {
    if a > b then a else b
  }

  function LastEnd(inputs: seq<Entry>): nat {
    if inputs == [] then 0 else Max(LastEnd(inputs[..|inputs| - 1]), End(inputs[|inputs| - 1]))
  }

  function LastShot(shots: seq<nat>): nat {
    if shots == [] then 0 else Max(LastShot(shots[..|shots| - 1]), shots[|shots| - 1])
  }

  function Shots(screenshotAtMs: Option<seq<nat>>): seq<nat> {
    if screenshotAtMs.Some? then screenshotAtMs.value else []
  }

  /** A text as its UTF-16 code units, whose number is the source's `length`. */
  type Text = seq<bv16>

  datatype Call =
    | Rejected(spanMs: nat)
    | Sequence(inputs: seq<Entry>, shots: Option<seq<nat>>, relayTimeoutMs: int, timeoutMs: int)
    | TypeText(text: Text, delayMs: Option<nat>, submit: bool, relayTimeoutMs: int, timeoutMs: int)

  function Budget(inputs: seq<Entry>, screenshotAtMs: Option<seq<nat>>): nat {
    Max(LastEnd(inputs), LastShot(Shots(screenshotAtMs)))
  }

  /** The command the `sequence` action sends, or its refusal. */
  function SequenceCall(inputs: seq<Entry>, screenshotAtMs: Option<seq<nat>>): Call {
    var budget := Budget(inputs, screenshotAtMs);
    if budget > INPUT_BUDGET_CAP_MS then Rejected(budget) else
    var t := DeriveTimeouts(Finite(budget as real), true);
    Sequence(Compile(inputs), screenshotAtMs, t.relayMs, t.serverMs)
  }

  lemma {:induction false} LastEndIs(inputs: seq<Entry>, bound: nat)
    ensures LastEnd(inputs) <= bound <==> forall i :: 0 <= i < |inputs| ==> End(inputs[i]) <= bound
  {
    if inputs != [] {
      var n := |inputs| - 1;
      LastEndIs(inputs[..n], bound);
      forall i | 0 <= i < n ensures inputs[..n][i] == inputs[i] {}
    }
  }

  lemma {:induction false} LastShotIs(shots: seq<nat>, bound: nat)
    ensures LastShot(shots) <= bound <==> forall i :: 0 <= i < |shots| ==> shots[i] <= bound
  {
    if shots != [] {
      var n := |shots| - 1;
      LastShotIs(shots[..n], bound);
      forall i | 0 <= i < n ensures shots[..n][i] == shots[i] {}
    }
  }

  /** A sequence is accepted exactly when every input ends, and every capture falls, within the
      published 40 seconds. */
  lemma AcceptedIff(inputs: seq<Entry>, screenshotAtMs: Option<seq<nat>>)
    ensures SequenceCall(inputs, screenshotAtMs).Sequence?
            <==> && (forall i :: 0 <= i < |inputs| ==> End(inputs[i]) <= 40000)
                 && (forall i :: 0 <= i < |Shots(screenshotAtMs)| ==> Shots(screenshotAtMs)[i] <= 40000)
  {
    hide Compile;
    LastEndIs(inputs, INPUT_BUDGET_CAP_MS);
    LastShotIs(Shots(screenshotAtMs), INPUT_BUDGET_CAP_MS);
  }

  /** An accepted call sends every entry, in order and in its own stretch of the wire, a stick as its two
      axes, and the capture offsets as given; a refused one reports how long it would have taken. */
  lemma SequenceSendsEverything(inputs: seq<Entry>, screenshotAtMs: Option<seq<nat>>, i: nat)
    requires i < |inputs|
    ensures match SequenceCall(inputs, screenshotAtMs)
            case Sequence(wire, shots, _, _) =>
              var (e, from, to) := (inputs[i], Slot(inputs, i), Slot(inputs, i + 1));
              && shots == screenshotAtMs && |wire| == Slot(inputs, |inputs|) && from < to <= |wire|
              && wire[from..to] == (match e.input
                   case Stick(stick, x, y, device) =>
                     [Entry(Axis(stick + "_x", x, device), e.startMs, e.durationMs),
                      Entry(Axis(stick + "_y", y, device), e.startMs, e.durationMs)]
                   case _ => [e])
            case Rejected(spanMs) => spanMs > 40000 && End(inputs[i]) <= spanMs
            case TypeText(_, _, _, _, _) => false
  {
    EntriesKeepTheirPlace(inputs, i);
    assert inputs[..|inputs|] == inputs;
    LastEndIs(inputs, LastEnd(inputs));
    hide Compile, LastEnd, LastShot, DeriveTimeouts;
  }

  /** Everything an accepted call makes the game do ends inside the clamped budget, which the
      clamp has not touched, and each layer's deadline lies strictly outside the one below it. */
  lemma AcceptedCallsFit(inputs: seq<Entry>, screenshotAtMs: Option<seq<nat>>)
    requires SequenceCall(inputs, screenshotAtMs).Sequence?
    ensures var call := SequenceCall(inputs, screenshotAtMs);
            var budget := Budget(inputs, screenshotAtMs);
            var t := DeriveTimeouts(Finite(budget as real), true);
            && t.clampedBudgetMs == budget
            && (forall k :: 0 <= k < |call.inputs| ==> End(call.inputs[k]) <= t.clampedBudgetMs)
            && (forall k :: 0 <= k < |Shots(call.shots)| ==> Shots(call.shots)[k] <= t.clampedBudgetMs)
            && t.clampedBudgetMs + READY_WAIT_MS < t.bridgeWallMs + READY_WAIT_MS < t.relayMs < t.serverMs
            && t.relayMs == call.relayTimeoutMs && t.serverMs == call.timeoutMs <= 60000
  {
    hide Compile, LastEnd, LastShot;
    var wire, budget := Compile(inputs), Budget(inputs, screenshotAtMs);
    LastEndIs(inputs, budget);
    LastShotIs(Shots(screenshotAtMs), budget);
    forall k | 0 <= k < |wire| ensures End(wire[k]) <= budget {
      var i := WireEntriesStemFromInputs(inputs, k);
    }
    NotClamped(budget);
  }

  /** Nothing is padded: the budget is the end of some wire entry, a capture, or zero. */
  lemma BudgetIsReached(inputs: seq<Entry>, screenshotAtMs: Option<seq<nat>>)
    ensures var budget := Budget(inputs, screenshotAtMs);
            || budget == 0
            || budget in Shots(screenshotAtMs)
            || exists k :: 0 <= k < |Compile(inputs)| && End(Compile(inputs)[k]) == budget
    ensures SequenceCall(inputs, screenshotAtMs).Rejected? ==>
              SequenceCall(inputs, screenshotAtMs).spanMs == Budget(inputs, screenshotAtMs)
  {
    hide Compile, LastEnd, LastShot;
    var end, shot := LastEnd(inputs), LastShot(Shots(screenshotAtMs));
    if end > 0 {
      LastEndIs(inputs, end);
      LastEndIs(inputs, end - 1);
      var i :| 0 <= i < |inputs| && End(inputs[i]) == end;
      EntriesKeepTheirPlace(inputs, i);
      assert End(Compile(inputs)[Slot(inputs, i)]) == end by {
        var part := Compile(inputs)[Slot(inputs, i)..Slot(inputs, i + 1)];
        assert part[0] == CompileOne(inputs[i])[0];
      }
    }
    if shot > 0 {
      LastShotIs(Shots(screenshotAtMs), shot);
      LastShotIs(Shots(screenshotAtMs), shot - 1);
    }
  }

  lemma NotClamped(budget: nat)
    requires budget <= INPUT_BUDGET_CAP_MS
    ensures DeriveTimeouts(Finite(budget as real), true).clampedBudgetMs == budget
  {}

  // ---- typing ----

  const DEFAULT_DELAY_MS: nat := 50

  function Delay(delayMs: Option<nat>): nat {
    if delayMs.Some? then delayMs.value else DEFAULT_DELAY_MS
  }

  /** The command the `type_text` action sends, or its refusal. */
  function TypeTextCall(text: Text, delayMs: Option<nat>, submit: bool): Call {
    var budget: nat := |text| * Delay(delayMs);
    if budget > INPUT_BUDGET_CAP_MS then Rejected(budget) else
    var t := DeriveTimeouts(Finite(budget as real), true);
    TypeText(text, delayMs, submit, t.relayMs, t.serverMs)
  }

  /** A text is accepted exactly when typing it takes at most 40 seconds, 50 ms a keystroke unless told
      otherwise; it is then sent as given, and otherwise its span is reported. */
  lemma TextAcceptedIff(text: Text, delayMs: Option<nat>, submit: bool)
    ensures var (call, span) := (TypeTextCall(text, delayMs, submit),
                                 Times(|text|, if delayMs.Some? then delayMs.value else 50));
            && (call.TypeText? <==> span <= 40000)
            && (call.TypeText? ==> call.text == text && call.delayMs == delayMs && call.submit == submit)
            && (!call.TypeText? ==> call == Rejected(span))
  {
    hide DeriveTimeouts;
  }

  function Times(a: nat, b: nat): nat {
    a * b
  }

  /** Every keystroke of an accepted text, and the pause after it, ends inside the budget. There is at
      most one keystroke per code unit. */
  lemma AcceptedTextsFit(text: Text, delayMs: Option<nat>, submit: bool, k: nat)
    requires TypeTextCall(text, delayMs, submit).TypeText? && k < |text|
    ensures var call := TypeTextCall(text, delayMs, submit);
            (k + 1) * Delay(delayMs) + READY_WAIT_MS < call.relayTimeoutMs < call.timeoutMs <= 60000
    ensures |text| * Delay(delayMs) <= 40000
  {
    var delay := Delay(delayMs);
    KeystrokeEnds(|text|, k, delay);
    NotClamped(|text| * delay);
  }

  lemma NonNegative(x: nat, y: nat)
    ensures x * y >= 0
  {}

  lemma Spread(n: int, m: int, delay: int)
    ensures (n - m) * delay == n * delay - m * delay
  {}

  lemma KeystrokeEnds(n: nat, k: nat, delay: nat)
    requires k < n
    ensures 0 <= (k + 1) * delay <= n * delay
  {
    NonNegative(n - (k + 1), delay);
    Spread(n, k + 1, delay);
  }
}

/** The merged timeline of a watch window: signal emissions and string-field changes in one
    ordered list, capped, with a flag that says whether anything is missing from it. */
module Timeline {
  import opened Options
  import opened WatchFields
  import opened Sequences
  import opened Sorting

  // ---- what the game sends ----

  datatype Samples = Numbers(numbers: seq<Sample<real>>) | Strings(strings: seq<Sample<string>>)

  datatype RawField = RawField(key: string, samples: Samples)

  datatype RawEvent = RawEvent(t: int, source: string, name: string, args: Option<string>)

  /** The response as an object whose `fields` are listed in entry order. */
  datatype Raw = Raw(windowMs: real, fields: seq<RawField>, events: Option<seq<RawEvent>>,
                     eventsTruncated: Option<bool>, fieldsTruncated: Option<map<string, bool>>)

  // ---- what the server answers ----

  datatype Summary =
    | OfNumbers(numeric: NumericSummary, samplesTruncated: bool)
    | OfStrings(text: StringSummary, samplesTruncated: bool)

  datatype Field = Field(key: string, summary: Summary)

  datatype Entry =
    | Signal(t: int, source: string, name: string, args: Option<string>)
    | AnimTransition(t: int, source: string, from: string, to: string)
    | FieldChange(t: int, source: string, field: string, from: string, to: string)

  datatype Response = Response(fields: seq<Field>, timeline: seq<Entry>, truncated: bool)

  const TIMELINE_MAX := 500

  // ---- field summaries ----

  function Count(samples: Samples): nat {
    match samples
    case Numbers(s) => |s|
    case Strings(s) => |s|
  }

  function Marked(raw: Raw, key: string): bool {
    raw.fieldsTruncated.Some? && key in raw.fieldsTruncated.value && raw.fieldsTruncated.value[key]
  }

  function FieldOf(raw: Raw, f: RawField): Field {
    Field(f.key, match f.samples
                 case Numbers(s) => OfNumbers(SummaryOfNumbers(s, raw.windowMs), Marked(raw, f.key))
                 case Strings(s) => OfStrings(SummaryOfStrings(s), Marked(raw, f.key)))
  }

  function FieldsOf(raw: Raw, fields: seq<RawField>): seq<Field> {
    var n := |fields| - 1;
    if n < 0 then [] else
    FieldsOf(raw, fields[..n]) + if Count(fields[n].samples) == 0 then [] else [FieldOf(raw, fields[n])]
  }

  /** `summarizeWatchRaw`: one summary per field that was sampled at all. */
  method SummarizeWatchRaw(raw: Raw) returns (result: seq<Field>)
    ensures result == FieldsOf(raw, raw.fields)
  {
    result := [];
    for i := 0 to |raw.fields|
      invariant result == FieldsOf(raw, raw.fields[..i])
    {
      var f := raw.fields[i];
      assert raw.fields[..i + 1][..i] == raw.fields[..i];
      if Count(f.samples) > 0 {
        match f.samples {
          case Numbers(s) =>
            var summary := SummarizeNumericField(s, raw.windowMs);
            result := result + [Field(f.key, OfNumbers(summary, Marked(raw, f.key)))];
          case Strings(s) =>
            var summary := SummarizeStringField(s);
            result := result + [Field(f.key, OfStrings(summary, Marked(raw, f.key)))];
        }
      }
    }
    assert raw.fields[..|raw.fields|] == raw.fields;
  }

  /** `at` lists, in order, exactly the fields among the first `n` that were sampled, and `result` has
      one summary for each: its own key, the summary of its own samples, and its saturation mark. */
  ghost predicate SummarizesFields(raw: Raw, fields: seq<RawField>, at: seq<nat>, result: seq<Field>) {
    && |result| == |at| && (forall i, j :: 0 <= i < j < |at| ==> at[i] < at[j])
    && (forall j :: 0 <= j < |at| ==> at[j] < |fields| && Summarizes(raw, fields[at[j]], result[j]))
    && (forall k: nat :: k < |fields| && fields[k].samples !in {Numbers([]), Strings([])} ==> k in at)
  }

  predicate Summarizes(raw: Raw, f: RawField, g: Field) {
    var marked := raw.fieldsTruncated.Some? && f.key in raw.fieldsTruncated.value && raw.fieldsTruncated.value[f.key];
    && g.key == f.key
    && match f.samples
       case Numbers(s) => s != [] && g.summary == OfNumbers(SummaryOfNumbers(s, raw.windowMs), marked)
       case Strings(s) => s != [] && g.summary == OfStrings(SummaryOfStrings(s), marked)
  }

  /** The summaries are those of the fields that were sampled at all, in entry order. */
  lemma {:induction false} FieldsAreThoseSampled(raw: Raw, fields: seq<RawField>) returns (at: seq<nat>)
    ensures SummarizesFields(raw, fields, at, FieldsOf(raw, fields))
  {
    var n := |fields| - 1;
    at := [];
    if n >= 0 {
      hide SummarizesFields, FieldOf;
      var front := FieldsAreThoseSampled(raw, fields[..n]);
      FieldsOneMore(raw, fields, front, FieldsOf(raw, fields[..n]));
      at := front + if Count(fields[n].samples) == 0 then [] else [n];
    }
  }

  lemma FieldsOneMore(raw: Raw, fields: seq<RawField>, front: seq<nat>, result: seq<Field>)
    requires fields != [] && SummarizesFields(raw, fields[..|fields| - 1], front, result)
    ensures var n := |fields| - 1;
            SummarizesFields(raw, fields, front + (if Count(fields[n].samples) == 0 then [] else [n]),
                             result + if Count(fields[n].samples) == 0 then [] else [FieldOf(raw, fields[n])])
  {
    hide SummaryOfNumbers, SummaryOfStrings;
    var n := |fields| - 1;
    assert Count(fields[n].samples) == 0 <==> fields[n].samples in {Numbers([]), Strings([])};
    assert Count(fields[n].samples) > 0 ==> Summarizes(raw, fields[n], FieldOf(raw, fields[n]));
    hide Summarizes, FieldOf, Count;
    forall k: nat | k < n ensures fields[..n][k] == fields[k] {}
  }

  // ---- keys ----

  /** `key.lastIndexOf(':')`. */
  function LastColon(key: string): (i: int)
    ensures -1 <= i < |key|
    ensures i >= 0 ==> key[i] == ':'
    ensures forall j :: i < j < |key| ==> key[j] != ':'
  {
    var n := |key| - 1;
    if n < 0 then -1 else if key[n] == ':' then n else LastColon(key[..n])
  }

  /** A full key as (source, field): what stands before and after its last colon. */
  function SplitKey(key: string): (string, string) {
    var sep := LastColon(key);
    if sep >= 0 then (key[..sep], key[sep + 1..]) else (key, key)
  }

  /** Two keys read the same exactly when they are the same, or one is a bare word and the other
      that word on both sides of a colon. */
  lemma KeysReadTheSameIff(a: string, b: string)
    ensures SplitKey(a) == SplitKey(b)
            <==> a == b || (':' !in a && b == a + ":" + a) || (':' !in b && a == b + ":" + b)
  {
    KeyParts(a);
    KeyParts(b);
    if ':' !in a { SplitAtColon(a, a); }
    if ':' !in b { SplitAtColon(b, b); }
  }

  /** So keys that are distinct and have a colon each, as the sender makes them, never do. */
  lemma ColonKeysAreApart(fields: seq<RawField>)
    requires forall i, j :: 0 <= i < j < |fields| ==> fields[i].key != fields[j].key
    requires forall i :: 0 <= i < |fields| ==> ':' in fields[i].key
    ensures KeysApart(fields)
  {
    hide SplitKey;
    forall i, j | 0 <= i < j < |fields| ensures SplitKey(fields[i].key) != SplitKey(fields[j].key) {
      KeysReadTheSameIff(fields[i].key, fields[j].key);
    }
  }

  lemma KeyParts(key: string)
    ensures var (source, field) := SplitKey(key);
            if ':' in key then key == source + ":" + field else source == key && field == key
  {
    var sep := LastColon(key);
    if sep >= 0 {
      assert key == key[..sep] + [key[sep]] + key[sep + 1..];
    }
  }

  lemma SplitAtColon(source: string, field: string)
    requires ':' !in field
    ensures SplitKey(source + ":" + field) == (source, field)
  {
    var key, n := source + ":" + field, |source|;
    assert key[n] == ':';
    forall j | n < j < |key| ensures key[j] != ':' {
      assert key[j] == field[j - n - 1];
    }
    assert LastColon(key) == n && key[..n] == source && key[n + 1..] == field;
  }

  // ---- gathering ----

  function SignalOf(e: RawEvent): Entry {
    Signal(e.t, e.source, e.name, e.args)
  }

  function SignalsOf(events: seq<RawEvent>): seq<Entry> {
    seq(|events|, i requires 0 <= i < |events| => SignalOf(events[i]))
  }

  function EntryOf(key: string, c: Change<string>): Entry {
    var (source, field) := SplitKey(key);
    if field == "anim" then AnimTransition(c.t, source, c.from, c.to)
    else FieldChange(c.t, source, field, c.from, c.to)
  }

  /** A key's last colon parts the node from its field; a change of the field `anim` is an animation
      transition. A key without a colon stands for both. */
  lemma EntriesSayWhere(source: string, field: string, c: Change<string>)
    requires ':' !in field
    ensures EntryOf(source + ":" + field, c)
         == if field == "anim" then AnimTransition(c.t, source, c.from, c.to)
            else FieldChange(c.t, source, field, c.from, c.to)
    ensures EntryOf(field, c)
         == if field == "anim" then AnimTransition(c.t, field, c.from, c.to)
            else FieldChange(c.t, field, field, c.from, c.to)
  {
    SplitAtColon(source, field);
    KeyParts(field);
    hide SplitKey;
  }

  function EntriesOf(key: string, changes: seq<Change<string>>): seq<Entry> {
    seq(|changes|, i requires 0 <= i < |changes| => EntryOf(key, changes[i]))
  }

  function FieldEntries(fields: seq<Field>): seq<Entry> {
    var n := |fields| - 1;
    if n < 0 then [] else
    FieldEntries(fields[..n]) +
    if fields[n].summary.OfStrings? then EntriesOf(fields[n].key, fields[n].summary.text.changes) else []
  }

  function Gathered(events: seq<RawEvent>, fields: seq<Field>): seq<Entry> {
    SignalsOf(events) + FieldEntries(fields)
  }

  // ---- order ----

  function Rank(e: Entry): int {
    match e
    case Signal(_, _, _, _) => 0
    case AnimTransition(_, _, _, _) => 1
    case FieldChange(_, _, _, _, _) => 2
  }

  /** The comparator handed to the sort. */
  function Compare(a: Entry, b: Entry): int {
    if a.t != b.t then a.t - b.t else Rank(a) - Rank(b)
  }

  predicate EntryLe(a: Entry, b: Entry) {
    Compare(a, b) <= 0
  }

  lemma EntryOrder()
    ensures TotalPreorder(EntryLe)
  {}

  /** The inner loop of `buildTimeline`: one field's changes. */
  method PushChanges(timeline: seq<Entry>, key: string, changes: seq<Change<string>>) returns (pushed: seq<Entry>)
    ensures pushed == timeline + EntriesOf(key, changes)
  {
    var sep := LastColon(key);
    var source := if sep >= 0 then key[..sep] else key;
    var field := if sep >= 0 then key[sep + 1..] else key;
    pushed := timeline;
    for j := 0 to |changes|
      invariant pushed == timeline + EntriesOf(key, changes[..j])
    {
      var c := changes[j];
      pushed := pushed + [if field == "anim" then AnimTransition(c.t, source, c.from, c.to)
                          else FieldChange(c.t, source, field, c.from, c.to)];
    }
    assert changes[..|changes|] == changes;
  }

  /** `buildTimeline`. */
  method BuildTimeline(events: seq<RawEvent>, fields: seq<Field>) returns (timeline: seq<Entry>)
    ensures timeline == Sort(Gathered(events, fields), EntryLe)
  {
    timeline := [];
    for i := 0 to |events|
      invariant timeline == SignalsOf(events[..i])
    {
      timeline := timeline + [SignalOf(events[i])];
    }
    assert events[..|events|] == events;
    for i := 0 to |fields|
      invariant timeline == SignalsOf(events) + FieldEntries(fields[..i])
    {
      assert fields[..i + 1][..i] == fields[..i];
      if fields[i].summary.OfStrings? {
        timeline := PushChanges(timeline, fields[i].key, fields[i].summary.text.changes);
      }
    }
    assert fields[..|fields|] == fields;
    timeline := Sort(timeline, EntryLe);
  }

  function Full(raw: Raw): seq<Entry> {
    Sort(Gathered(if raw.events.Some? then raw.events.value else [], FieldsOf(raw, raw.fields)), EntryLe)
  }

  predicate AnySaturated(fields: seq<Field>) {
    exists i :: 0 <= i < |fields| && fields[i].summary.OfStrings? && fields[i].summary.samplesTruncated
  }

  function Respond(raw: Raw): Response {
    var fields, full := FieldsOf(raw, raw.fields), Full(raw);
    Response(fields,
             if |full| > TIMELINE_MAX then full[..TIMELINE_MAX] else full,
             raw.eventsTruncated == Some(true) || |full| > TIMELINE_MAX
             || AnySaturated(fields))
  }

  /** `summarizeWatchResponse`. */
  method SummarizeWatchResponse(raw: Raw) returns (response: Response)
    ensures response == Respond(raw)
  {
    var fields := SummarizeWatchRaw(raw);
    var full := BuildTimeline(if raw.events.Some? then raw.events.value else [], fields);
    var capped := |full| > TIMELINE_MAX;
    var timeline := if capped then full[..TIMELINE_MAX] else full;
    var stringTruncated := AnySaturated(fields);
    return Response(fields, timeline,
                    (raw.eventsTruncated.Some? && raw.eventsTruncated.value) || capped || stringTruncated);
  }

  /** The response carries the summary of every field that was sampled, in entry order. */
  lemma ResponseSummarizesFields(raw: Raw) returns (at: seq<nat>)
    ensures SummarizesFields(raw, raw.fields, at, Respond(raw).fields)
  {
    hide SummarizesFields, Full;
    at := FieldsAreThoseSampled(raw, raw.fields);
  }

  // ---- what the merge promises ----

  /** Earlier entries first; at one millisecond, signals, then animation transitions, then changes. */
  predicate InTurn(a: Entry, b: Entry) {
    a.t < b.t || (a.t == b.t && (b.Signal? ==> a.Signal?) && (a.FieldChange? ==> b.FieldChange?))
  }

  /** Before the cap the timeline is all signals and all changes, and no other stable
      arrangement of them by time and kind exists. */
  lemma TimelineIsTheOnlyMerge(events: seq<RawEvent>, fields: seq<Field>, p: seq<nat>)
    ensures var all, timeline := Gathered(events, fields), Sort(Gathered(events, fields), EntryLe);
            && multiset(timeline) == multiset(SignalsOf(events)) + multiset(FieldEntries(fields))
            && (forall i, j :: 0 <= i < j < |timeline| ==> InTurn(timeline[i], timeline[j]))
            && (StableOrder(all, EntryLe, p) ==> Pick(all, p) == timeline)
  {
    hide Sort;
    var all := Gathered(events, fields);
    EntryOrder();
    SortKeepsMultiset(all, EntryLe);
    SortIsSorted(all, EntryLe);
    assert forall a, b :: EntryLe(a, b) ==> InTurn(a, b);
    if StableOrder(all, EntryLe, p) { StableOrderIsUnique(all, EntryLe, p); }
  }

  function At(t: int, rank: int): Entry -> bool {
    (e: Entry) => e.t == t && Rank(e) == rank
  }

  /** Entries of one kind and millisecond keep the order they were gathered in; for signals that
      is the order of emission. */
  lemma SameMillisecondKeepsOrder(events: seq<RawEvent>, fields: seq<Field>, t: int, rank: int)
    ensures var all := Gathered(events, fields);
            Filter(Sort(all, EntryLe), At(t, rank)) == Filter(all, At(t, rank))
    ensures Filter(Gathered(events, fields), At(t, 0)) == Filter(SignalsOf(events), At(t, 0))
  {
    var all := Gathered(events, fields);
    EntryOrder();
    forall i, j | 0 <= i < j < |Filter(all, At(t, rank))|
      ensures EntryLe(Filter(all, At(t, rank))[i], Filter(all, At(t, rank))[j])
    {
      assert Filter(all, At(t, rank))[i] in Filter(all, At(t, rank));
      assert Filter(all, At(t, rank))[j] in Filter(all, At(t, rank));
    }
    SortKeepsOrderedPart(all, EntryLe, At(t, rank));
    FilterConcat(SignalsOf(events), FieldEntries(fields), At(t, 0));
    NoSignals(fields);
    FilterNone(FieldEntries(fields), At(t, 0));
  }

  lemma {:induction false} NoSignals(fields: seq<Field>)
    ensures forall e :: e in FieldEntries(fields) ==> Rank(e) > 0
  {
    if fields != [] { NoSignals(fields[..|fields| - 1]); }
  }

  /** The cap keeps the earliest entries. */
  lemma CapKeepsTheEarliest(raw: Raw, i: nat, j: nat)
    requires i < |Respond(raw).timeline| <= j < |Full(raw)|
    ensures Respond(raw).timeline <= Full(raw) && |Respond(raw).timeline| == 500
    ensures InTurn(Respond(raw).timeline[i], Full(raw)[j]) && Respond(raw).truncated
  {
    var all := Gathered(if raw.events.Some? then raw.events.value else [], FieldsOf(raw, raw.fields));
    EntryOrder();
    SortIsSorted(all, EntryLe);
    hide Sort;
  }

  // ---- what the flag promises ----

  function TotalChanges(fields: seq<RawField>): nat {
    var n := |fields| - 1;
    if n < 0 then 0 else
    TotalChanges(fields[..n]) + if fields[n].samples.Strings? then |ChangesOf(fields[n].samples.strings)| else 0
  }

  lemma {:induction false} EntriesAreCounted(raw: Raw, fields: seq<RawField>)
    ensures |FieldEntries(FieldsOf(raw, fields))| == TotalChanges(fields)
  {
    var n := |fields| - 1;
    if n >= 0 {
      EntriesAreCounted(raw, fields[..n]);
      FieldEntriesOneMore(raw, fields);
      hide FieldEntries, FieldsOf;
    }
  }

  lemma FieldEntriesOneMore(raw: Raw, fields: seq<RawField>)
    requires fields != []
    ensures var n := |fields| - 1;
            FieldEntries(FieldsOf(raw, fields))
            == FieldEntries(FieldsOf(raw, fields[..n])) +
               if fields[n].samples.Strings?
               then EntriesOf(fields[n].key, ChangesOf(fields[n].samples.strings)) else []
  {
    hide EntriesOf;
    var n := |fields| - 1;
    var front := FieldsOf(raw, fields[..n]);
    if Count(fields[n].samples) > 0 {
      assert (front + [FieldOf(raw, fields[n])])[..|front|] == front;
    } else {
      assert FieldsOf(raw, fields) == front;
      EntryCount(fields[n].key, []);
    }
  }

  ghost predicate StringFieldSaturated(raw: Raw, fields: seq<RawField>) {
    exists i :: 0 <= i < |fields| && fields[i].samples.Strings? && Count(fields[i].samples) > 0
                && Marked(raw, fields[i].key)
  }

  lemma {:induction false} SaturationShows(raw: Raw, fields: seq<RawField>)
    ensures AnySaturated(FieldsOf(raw, fields)) <==> StringFieldSaturated(raw, fields)
  {
    var n := |fields| - 1;
    if n >= 0 {
      hide AnySaturated, StringFieldSaturated;
      SaturationShows(raw, fields[..n]);
      StringFieldOneMore(raw, fields);
      var front := FieldsOf(raw, fields[..n]);
      if Count(fields[n].samples) > 0 {
        AnyOneMore(front, FieldOf(raw, fields[n]));
      } else {
        assert FieldsOf(raw, fields) == front;
      }
    }
  }

  lemma AnyOneMore(fields: seq<Field>, f: Field)
    ensures AnySaturated(fields + [f])
            <==> AnySaturated(fields) || (f.summary.OfStrings? && f.summary.samplesTruncated)
  {
    var all := fields + [f];
    assert all[|fields|] == f;
    forall i | 0 <= i < |fields| ensures all[i] == fields[i] {}
  }

  lemma StringFieldOneMore(raw: Raw, fields: seq<RawField>)
    requires fields != []
    ensures var n := |fields| - 1;
            StringFieldSaturated(raw, fields)
            <==> StringFieldSaturated(raw, fields[..n])
                 || (fields[n].samples.Strings? && Count(fields[n].samples) > 0 && Marked(raw, fields[n].key))
  {
    hide Count, Marked;
    var n := |fields| - 1;
    var front := fields[..n];
    forall i | 0 <= i < n ensures fields[i] == front[i] {}
  }

  /** The flag, in terms of the raw window: signals were dropped upstream, or signals and string
      changes together exceed the cap, or a sampled string field overran its buffer. A numeric
      field that overran its own does not matter. */
  lemma FlaggedIff(raw: Raw)
    ensures Respond(raw).truncated
            <==> || raw.eventsTruncated == Some(true)
                 || (if raw.events.Some? then |raw.events.value| else 0) + TotalChanges(raw.fields) > 500
                 || StringFieldSaturated(raw, raw.fields)
  {
    hide Sort, FieldsOf, FieldEntries, TotalChanges, StringFieldSaturated, AnySaturated;
    EntriesAreCounted(raw, raw.fields);
    SaturationShows(raw, raw.fields);
  }

  /** The timeline's entries about one field. */
  function About(key: string): Entry -> bool {
    (e: Entry) => match e
      case Signal(_, _, _, _) => false
      case AnimTransition(_, source, _, _) => (source, "anim") == SplitKey(key)
      case FieldChange(_, source, field, _, _) => field != "anim" && (source, field) == SplitKey(key)
  }

  function ChangeOf(e: Entry): Change<string> {
    match e
    case Signal(t, _, _, _) => Change(t, "", "")
    case AnimTransition(t, _, from, to) => Change(t, from, to)
    case FieldChange(t, _, _, from, to) => Change(t, from, to)
  }

  /** One field's changes, read back off a timeline. */
  function ChangesIn(timeline: seq<Entry>, key: string): seq<Change<string>> {
    var part := Filter(timeline, About(key));
    seq(|part|, i requires 0 <= i < |part| => ChangeOf(part[i]))
  }

  /** No two string fields' keys read the same; see `KeysReadTheSameIff`. */
  predicate KeysApart(fields: seq<RawField>) {
    forall i, j | 0 <= i < j < |fields| ::
      fields[i].samples.Strings? && fields[j].samples.Strings? ==> SplitKey(fields[i].key) != SplitKey(fields[j].key)
  }

  lemma EntriesOfAre(key: string, changes: seq<Change<string>>, other: string)
    ensures SplitKey(key) == SplitKey(other) ==>
              Filter(EntriesOf(key, changes), About(other)) == EntriesOf(key, changes)
    ensures SplitKey(key) != SplitKey(other) ==> Filter(EntriesOf(key, changes), About(other)) == []
  {
    hide LastColon, SplitKey;
    if SplitKey(key) == SplitKey(other) {
      FilterAll(EntriesOf(key, changes), About(other));
    } else {
      FilterNone(EntriesOf(key, changes), About(other));
    }
  }

  /** No string field of this list has changes that read like `key`'s. */
  predicate Silent(fields: seq<RawField>, key: string) {
    forall j :: 0 <= j < |fields| && fields[j].samples.Strings? && SplitKey(fields[j].key) == SplitKey(key) ==>
      ChangesOf(fields[j].samples.strings) == []
  }

  /** No other string field whose key reads like that of field `k` has changes. */
  predicate SilentTwins(fields: seq<RawField>, k: nat)
    requires k < |fields|
  {
    Silent(fields[..k], fields[k].key) && Silent(fields[k + 1..], fields[k].key)
  }

  /** String fields whose keys read differently have no twins at all; see `KeysReadTheSameIff`. */
  lemma ApartIsSilent(fields: seq<RawField>, k: nat)
    requires KeysApart(fields) && k < |fields| && fields[k].samples.Strings?
    ensures SilentTwins(fields, k)
  {
    hide SplitKey, ChangesOf;
    var (before, after) := (fields[..k], fields[k + 1..]);
    forall j | 0 <= j < |after| ensures after[j] == fields[k + 1 + j] {}
    forall j | 0 <= j < |before| ensures before[j] == fields[j] {}
  }

  /** The entries about a key that a list of fields contributes. */
  function Part(raw: Raw, fields: seq<RawField>, key: string): seq<Entry> {
    Filter(FieldEntries(FieldsOf(raw, fields)), About(key))
  }

  /** What one field contributes. */
  function Share(f: RawField, key: string): seq<Entry> {
    if f.samples.Strings? && SplitKey(f.key) == SplitKey(key)
    then EntriesOf(f.key, ChangesOf(f.samples.strings)) else []
  }

  lemma PartOneMore(raw: Raw, fields: seq<RawField>, key: string)
    requires fields != []
    ensures var n := |fields| - 1; Part(raw, fields, key) == Part(raw, fields[..n], key) + Share(fields[n], key)
  {
    hide About, SplitKey, Filter, FieldEntries, FieldsOf, EntriesOf;
    var n := |fields| - 1;
    FieldEntriesOneMore(raw, fields);
    if fields[n].samples.Strings? {
      var changes := ChangesOf(fields[n].samples.strings);
      FilterConcat(FieldEntries(FieldsOf(raw, fields[..n])), EntriesOf(fields[n].key, changes), About(key));
      EntriesOfAre(fields[n].key, changes, key);
    } else {
      assert FieldEntries(FieldsOf(raw, fields)) == FieldEntries(FieldsOf(raw, fields[..n]));
    }
  }

  lemma {:induction false} PartConcat(raw: Raw, a: seq<RawField>, b: seq<RawField>, key: string)
    ensures Part(raw, a + b, key) == Part(raw, a, key) + Part(raw, b, key)
  {
    hide Part, Share;
    var n := |b| - 1;
    if n < 0 {
      assert a + b == a;
      PartOfNone(raw, b, key);
    } else {
      assert (a + b)[..|a + b| - 1] == a + b[..n];
      PartConcat(raw, a, b[..n], key);
      PartOneMore(raw, a + b, key);
      PartOneMore(raw, b, key);
    }
  }

  lemma PartOfOne(raw: Raw, f: RawField, key: string)
    ensures Part(raw, [f], key) == Share(f, key)
  {
    hide Part, Share;
    PartOneMore(raw, [f], key);
    PartOfNone(raw, [f][..0], key);
  }

  lemma PartOfNone(raw: Raw, fields: seq<RawField>, key: string)
    requires fields == []
    ensures Part(raw, fields, key) == []
  {}

  lemma {:induction false} SilentPart(raw: Raw, fields: seq<RawField>, key: string)
    ensures Part(raw, fields, key) == [] <==> Silent(fields, key)
  {
    hide Part, SplitKey, ChangesOf;
    if fields == [] {
      PartOfNone(raw, fields, key);
    } else {
      var (f, rest) := (fields[0], fields[1..]);
      assert fields == [f] + rest;
      PartConcat(raw, [f], rest, key);
      PartOfOne(raw, f, key);
      SilentPart(raw, rest, key);
      if f.samples.Strings? { EntryCount(f.key, ChangesOf(f.samples.strings)); }
      hide EntriesOf;
      forall j | 0 < j < |fields| ensures fields[j] == rest[j - 1] {}
      forall j | 0 <= j < |rest| ensures rest[j] == fields[j + 1] {}
    }
  }

  /** All that is gathered about a field is its own changes, exactly when it has no twin with any. */
  lemma FieldPart(raw: Raw, fields: seq<RawField>, k: nat)
    requires k < |fields| && fields[k].samples.Strings?
    ensures var (key, changes) := (fields[k].key, ChangesOf(fields[k].samples.strings));
            if SilentTwins(fields, k) then Part(raw, fields, key) == EntriesOf(key, changes)
            else |Part(raw, fields, key)| > |changes|
  {
    hide Part, Silent, SplitKey, ChangesOf, EntriesOf;
    var (key, before, after) := (fields[k].key, fields[..k], fields[k + 1..]);
    assert fields == (before + [fields[k]]) + after;
    PartConcat(raw, before + [fields[k]], after, key);
    PartConcat(raw, before, [fields[k]], key);
    PartOfOne(raw, fields[k], key);
    SilentPart(raw, before, key);
    SilentPart(raw, after, key);
    EntryCount(key, ChangesOf(fields[k].samples.strings));
  }

  lemma SignalsAreAboutNoField(events: seq<RawEvent>, key: string)
    ensures Filter(SignalsOf(events), About(key)) == []
  {
    FilterNone(SignalsOf(events), About(key));
  }

  predicate InOrder(changes: seq<Change<string>>) {
    forall i, j :: 0 <= i < j < |changes| ==> changes[i].t <= changes[j].t
  }

  lemma EntriesInLine(key: string, changes: seq<Change<string>>)
    ensures InLine(EntriesOf(key, changes), EntryLe) <==> InOrder(changes)
  {
    hide SplitKey;
    var es := EntriesOf(key, changes);
    forall i | 0 <= i < |es| ensures es[i].t == changes[i].t && Rank(es[i]) == Rank(EntryOf(key, changes[0])) {}
    hide EntryOf, EntriesOf;
    if InLine(es, EntryLe) {
      forall i, j | 0 <= i < j < |changes| ensures changes[i].t <= changes[j].t { assert EntryLe(es[i], es[j]); }
    }
  }

  /** The entries about a key come out of the sort as what was gathered about it, sorted. */
  lemma MergedPart(raw: Raw, events: seq<RawEvent>, key: string)
    ensures Filter(Sort(Gathered(events, FieldsOf(raw, raw.fields)), EntryLe), About(key))
            == Sort(Part(raw, raw.fields, key), EntryLe)
  {
    hide FieldsOf, Filter, Sort, About, FieldEntries, SignalsOf, EntryLe;
    var fields := FieldsOf(raw, raw.fields);
    SignalsAreAboutNoField(events, key);
    FilterConcat(SignalsOf(events), FieldEntries(fields), About(key));
    assert Filter(Gathered(events, fields), About(key)) == Part(raw, raw.fields, key);
    EntryOrder();
    SortCommutesWithFilter(Gathered(events, fields), EntryLe, About(key));
  }

  /** An unflagged timeline's entries about a string field are that field's changes, in order, if and
      only if no field whose key reads the same has changes of its own and the field's changes are in
      time order; so always, when keys read differently and the clock does not run backwards. */
  lemma UnflaggedTimelineHoldsEveryChange(raw: Raw, k: nat)
    requires !Respond(raw).truncated && k < |raw.fields| && raw.fields[k].samples.Strings?
    ensures var changes := ChangesOf(raw.fields[k].samples.strings);
            && (ChangesIn(Respond(raw).timeline, raw.fields[k].key) == changes
                <==> SilentTwins(raw.fields, k) && InOrder(changes))
            && (KeysApart(raw.fields) ==> SilentTwins(raw.fields, k))
            && (InTimeOrder(raw.fields[k].samples.strings) ==> InOrder(changes))
  {
    hide FieldsOf, Filter, Sort, Gathered, EntriesOf, ChangesOf, ChangeOf, AnySaturated, Part, SilentTwins, InOrder;
    hide KeysApart, InTimeOrder, FieldEntries, About;
    var key, changes := raw.fields[k].key, ChangesOf(raw.fields[k].samples.strings);
    MergedPart(raw, if raw.events.Some? then raw.events.value else [], key);
    assert Respond(raw).timeline == Full(raw);
    hide Respond, Full;
    FieldPart(raw, raw.fields, k);
    if SilentTwins(raw.fields, k) { ReadBack(key, changes); }
    if KeysApart(raw.fields) { ApartIsSilent(raw.fields, k); }
    if InTimeOrder(raw.fields[k].samples.strings) { ChangesInOrder(raw.fields[k].samples.strings); }
  }

  lemma ChangesInOrder(samples: seq<Sample<string>>)
    requires InTimeOrder(samples)
    ensures InOrder(ChangesOf(samples))
  {
    ChangesAreInOrder(samples);
  }

  /** One field's entries, sorted, read as its changes exactly when those are in time order. */
  lemma ReadBack(key: string, changes: seq<Change<string>>)
    ensures var sorted := Sort(EntriesOf(key, changes), EntryLe);
            |sorted| == |changes| &&
            ((forall i :: 0 <= i < |sorted| ==> ChangeOf(sorted[i]) == changes[i]) <==> InOrder(changes))
  {
    var (es, sorted) := (EntriesOf(key, changes), Sort(EntriesOf(key, changes), EntryLe));
    EntryOrder();
    EntryCount(key, changes);
    SortIsSorted(es, EntryLe);
    SortedIffInLine(es, EntryLe);
    EntriesInLine(key, changes);
    hide Sort, EntriesOf, InLine;
    forall i | 0 <= i < |changes| ensures ChangeOf(es[i]) == changes[i] { EntryIsChange(key, changes, i); }
    if forall i :: 0 <= i < |sorted| ==> ChangeOf(sorted[i]) == changes[i] {
      forall i, j | 0 <= i < j < |changes| ensures changes[i].t <= changes[j].t {
        assert EntryLe(sorted[i], sorted[j]) && ChangeOf(sorted[i]) == changes[i] && ChangeOf(sorted[j]) == changes[j];
        TimeOfChange(sorted[i]);
        TimeOfChange(sorted[j]);
      }
    }
  }

  lemma TimeOfChange(e: Entry)
    ensures ChangeOf(e).t == e.t
  {}

  lemma EntryIsChange(key: string, changes: seq<Change<string>>, i: nat)
    requires i < |changes|
    ensures |EntriesOf(key, changes)| == |changes| && ChangeOf(EntriesOf(key, changes)[i]) == changes[i]
  {
    hide SplitKey;
  }

  lemma EntryCount(key: string, changes: seq<Change<string>>)
    ensures |EntriesOf(key, changes)| == |changes|
  {}

  function IsSignal(): Entry -> bool {
    (e: Entry) => e.Signal?
  }

  function EventOf(e: Entry): RawEvent
    requires e.Signal?
  {
    RawEvent(e.t, e.source, e.name, e.args)
  }

  /** The signal events, read back off a timeline. */
  function EventsIn(timeline: seq<Entry>): seq<RawEvent> {
    var part := Filter(timeline, IsSignal());
    seq(|part|, i requires 0 <= i < |part| => assert part[i] in part; EventOf(part[i]))
  }

  /** The signal events come back off the merged timeline exactly as sent if and only if they were
      buffered in time order. */
  lemma MergeKeepsSignals(events: seq<RawEvent>, fields: seq<Field>)
    ensures EventsIn(Sort(Gathered(events, fields), EntryLe)) == events
            <==> forall i, j :: 0 <= i < j < |events| ==> events[i].t <= events[j].t
  {
    hide Sort, FieldEntries, Filter;
    var (all, signals) := (Gathered(events, fields), SignalsOf(events));
    FilterConcat(signals, FieldEntries(fields), IsSignal());
    FilterAll(signals, IsSignal());
    NoSignals(fields);
    FilterNone(FieldEntries(fields), IsSignal());
    assert Filter(all, IsSignal()) == signals;
    EntryOrder();
    SortCommutesWithFilter(all, EntryLe, IsSignal());
    SortIsSorted(signals, EntryLe);
    SortedIffInLine(signals, EntryLe);
    var back := EventsIn(Sort(all, EntryLe));
    if back == events {
      forall i, j | 0 <= i < j < |events| ensures events[i].t <= events[j].t {
        assert back[i] == events[i] && back[j] == events[j];
      }
    }
  }

  /** An unflagged response leaves nothing out: its timeline is every signal and every change, and
      the signals read back as sent if they were buffered in time order. */
  lemma UnflaggedResponseIsComplete(raw: Raw)
    requires !Respond(raw).truncated
    ensures var events := if raw.events.Some? then raw.events.value else [];
            && multiset(Respond(raw).timeline)
               == multiset(SignalsOf(events)) + multiset(FieldEntries(FieldsOf(raw, raw.fields)))
            && (EventsIn(Respond(raw).timeline) == events
                <==> forall i, j :: 0 <= i < j < |events| ==> events[i].t <= events[j].t)
  {
    var events := if raw.events.Some? then raw.events.value else [];
    hide FieldsOf, Sort, Gathered, FieldEntries, SignalsOf, EventsIn, StableOrder, Pick;
    TimelineIsTheOnlyMerge(events, FieldsOf(raw, raw.fields), []);
    MergeKeepsSignals(events, FieldsOf(raw, raw.fields));
  }

  /** From an unflagged response alone, a field's start value and the shared timeline tell what the
      field read, for every field whose changes the timeline holds, at every instant that splits them:
      what the last sample by then recorded. */
  lemma UnflaggedResponseRebuildsWindow(raw: Raw, k: nat, s: nat, t: int)
    requires !Respond(raw).truncated && k < |raw.fields| && raw.fields[k].samples.Strings?
    requires SilentTwins(raw.fields, k) && InOrder(ChangesOf(raw.fields[k].samples.strings))
    requires s < |raw.fields[k].samples.strings| && SplitsChanges(raw.fields[k].samples.strings, s, t)
    ensures var samples := raw.fields[k].samples.strings;
            ValueAt(samples[0].value, ChangesIn(Respond(raw).timeline, raw.fields[k].key), t) == samples[s].value
  {
    hide Respond, ChangesIn, SilentTwins;
    UnflaggedTimelineHoldsEveryChange(raw, k);
    ChangesRebuildSamples(raw.fields[k].samples.strings, s, t);
  }
}

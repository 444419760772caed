/** Tool schemas: a union of branches published as one object, with structured markers that say
    which actions require or accept each field. */
module SchemaFlatten {
  import opened Sequences
  import opened Options

  /** A JSON constant: a string, or any other value with what `String` makes of it. */
  datatype Literal = Text(text: string) | Other(text: string)

  /** A property's schema: its constant, description and enumeration, and everything else. */
  datatype Prop = Prop(constant: Option<Literal>, description: string, enumeration: Option<seq<string>>, shape: string)

  /** One object branch: its properties in order, and its list of required keys. */
  datatype Branch = Branch(properties: seq<(string, Prop)>, required: seq<string>)

  /** A branch's label: its discriminator's constant, or its position counted from 1. */
  datatype Label = Const(value: string) | Variant(n: nat)

  datatype Appearance = Appearance(tag: Label, prop: Prop, required: bool)

  /** "(required for: ..; optional for: ..)", "(for: ..)", or no marker. */
  datatype Marker = NoMarker | RequiredFor(required: seq<Label>, optional: seq<Label>) | For(labels: seq<Label>)

  /** One text shared by all branches that have any, or one labelled text per branch. */
  datatype Wording = Shared(text: string) | Labelled(segments: seq<(Label, string)>)

  datatype Published =
    | Discriminator(labels: seq<Label>, texts: seq<string>)
    | Merged(base: Prop, text: Wording, marker: Marker)

  datatype Flat = Flat(properties: map<string, Published>, required: seq<string>)

  // ---- branches ----

  function Keys(b: Branch): set<string> {
    set i | 0 <= i < |b.properties| :: b.properties[i].0
  }

  predicate DistinctKeys(b: Branch) {
    forall i, j :: 0 <= i < j < |b.properties| ==> b.properties[i].0 != b.properties[j].0
  }

  /** What the schema library emits: distinct keys, each required one among the properties. */
  predicate WellFormed(b: Branch) {
    DistinctKeys(b) && forall k :: k in b.required ==> k in Keys(b)
  }

  function PropAt(props: seq<(string, Prop)>, key: string): Option<Prop> {
    if props == [] then None
    else if props[0].0 == key then Some(props[0].1)
    else PropAt(props[1..], key)
  }

  lemma {:induction false} PropAtFinds(props: seq<(string, Prop)>, key: string)
    ensures PropAt(props, key).Some? <==> exists i :: 0 <= i < |props| && props[i].0 == key
    ensures PropAt(props, key).Some? ==> (key, PropAt(props, key).value) in props
  {
    if props != [] && props[0].0 != key {
      PropAtFinds(props[1..], key);
      if i :| 0 <= i < |props| && props[i].0 == key {
        assert props[1..][i - 1].0 == key;
      }
    }
  }

  function PropOf(b: Branch, key: string): Option<Prop> {
    PropAt(b.properties, key)
  }

  function Constant(b: Branch, key: string): Option<Literal> {
    if PropOf(b, key).Some? then PropOf(b, key).value.constant else None
  }

  function CommonRequired(bs: seq<Branch>): (r: seq<string>)
    ensures bs != [] ==> forall k :: k in r <==> forall b :: b in bs ==> k in b.required
  {
    if bs == [] then [] else Filter(bs[0].required, k => forall b :: b in bs ==> k in b.required)
  }

  function Discriminators(bs: seq<Branch>): (r: seq<string>)
    ensures forall k :: k in r <==> k in CommonRequired(bs) && forall b :: b in bs ==> Constant(b, k).Some?
  {
    Filter(CommonRequired(bs), k => forall b :: b in bs ==> Constant(b, k).Some?)
  }

  /** The first discriminator's constant labels a branch, unless there is none or its name is the
      empty string, which the source's test takes for none. */
  function LabelOf(bs: seq<Branch>, i: nat): Label
    requires i < |bs|
  {
    var ds := Discriminators(bs);
    if ds == [] || ds[0] == "" then Variant(i + 1) else
    assert ds[0] in ds && bs[i] in bs;
    Const(Constant(bs[i], ds[0]).value.text)
  }

  // ---- what is published for one property ----

  /** The appearances of a property in the first `n` branches, in order. */
  function Appearances(bs: seq<Branch>, name: string, n: nat): seq<Appearance>
    requires n <= |bs|
  {
    if n == 0 then [] else
    Appearances(bs, name, n - 1)
    + (match PropOf(bs[n - 1], name)
       case None => []
       case Some(p) => [Appearance(LabelOf(bs, n - 1), p, name in bs[n - 1].required)])
  }

  function Labels(apps: seq<Appearance>): seq<Label> {
    seq(|apps|, i requires 0 <= i < |apps| => apps[i].tag)
  }

  function MarkerOf(common: bool, apps: seq<Appearance>, branches: nat): Marker {
    if common then NoMarker else
    var requiredLabels := Labels(Filter(apps, (a: Appearance) => a.required));
    var allLabels := Labels(apps);
    if requiredLabels != [] then
      RequiredFor(requiredLabels, Filter(allLabels, l => l !in requiredLabels))
    else if |allLabels| < branches then For(allLabels)
    else NoMarker
  }

  function Texts(apps: seq<Appearance>): seq<(Label, string)> {
    var described := Filter(apps, (a: Appearance) => a.prop.description != "");
    seq(|described|, i requires 0 <= i < |described| => (described[i].tag, described[i].prop.description))
  }

  predicate OneText(texts: seq<(Label, string)>) {
    forall i :: 0 <= i < |texts| ==> texts[i].1 == texts[0].1
  }

  function TextOf(apps: seq<Appearance>): Wording {
    var texts := Texts(apps);
    if texts == [] then Shared("") else if OneText(texts) then Shared(texts[0].1) else Labelled(texts)
  }

  function Merge(bs: seq<Branch>, name: string, apps: seq<Appearance>): Published
    requires apps != []
  {
    Merged(apps[|apps| - 1].prop, TextOf(apps), MarkerOf(name in CommonRequired(bs), apps, |bs|))
  }

  function Discriminate(bs: seq<Branch>, key: string): Published {
    Discriminator(
      seq(|bs|, i requires 0 <= i < |bs| => LabelOf(bs, i)),
      seq(|bs|, i requires 0 <= i < |bs| =>
        if PropOf(bs[i], key).Some? then PropOf(bs[i], key).value.description else ""))
  }

  function Names(bs: seq<Branch>): set<string> {
    set i, k | 0 <= i < |bs| && k in Keys(bs[i]) :: k
  }

  /** A property of some branch has an appearance. */
  lemma {:induction false} NamesAppear(bs: seq<Branch>, name: string, n: nat)
    requires n <= |bs|
    ensures Appearances(bs, name, n) != [] <==> exists i :: 0 <= i < n && name in Keys(bs[i])
  {
    hide Keys, PropOf, LabelOf;
    if n > 0 {
      NamesAppear(bs, name, n - 1);
      KeyHasProp(bs[n - 1], name);
    }
  }

  lemma KeyHasProp(b: Branch, name: string)
    ensures name in Keys(b) <==> PropOf(b, name).Some?
  {
    PropAtFinds(b.properties, name);
  }

  ghost function ExpectedAt(bs: seq<Branch>, name: string): Published {
    if name in Discriminators(bs) || Appearances(bs, name, |bs|) == [] then Discriminate(bs, name)
    else Merge(bs, name, Appearances(bs, name, |bs|))
  }

  ghost function Expected(bs: seq<Branch>): Flat {
    Flat(map name | name in Names(bs) :: ExpectedAt(bs, name), CommonRequired(bs))
  }

  // ---- the algorithm ----

  /** The appearances gathered so far: those of the first `i` branches, and those of branch `i` up
      to its `j`-th property. */
  ghost predicate Gathered(bs: seq<Branch>, m: map<string, seq<Appearance>>, i: nat, done: set<string>)
    requires i <= |bs| && (done != {} ==> i < |bs|)
  {
    forall name :: name !in Discriminators(bs) ==> GatheredAt(bs, m, name, if name in done then i + 1 else i)
  }

  predicate GatheredAt(bs: seq<Branch>, m: map<string, seq<Appearance>>, name: string, n: nat)
    requires n <= |bs|
  {
    var apps := Appearances(bs, name, n);
    if apps == [] then name !in m else name in m && m[name] == apps
  }

  method GatherBranch(bs: seq<Branch>, i: nat, ds: seq<string>, m0: map<string, seq<Appearance>>)
    returns (m: map<string, seq<Appearance>>)
    requires i < |bs| && DistinctKeys(bs[i]) && ds == Discriminators(bs)
    requires m0.Keys !! (set k | k in ds) && Gathered(bs, m0, i, {})
    ensures m.Keys !! (set k | k in ds) && Gathered(bs, m, i + 1, {})
  {
    hide Discriminators, LabelOf, CommonRequired, Gathered, PropOf;
    var b, tag := bs[i], LabelOf(bs, i);
    m := m0;
    ghost var done: set<string> := {};
    for j := 0 to |b.properties|
      invariant m.Keys !! set k | k in ds
      invariant done == set x | 0 <= x < j :: b.properties[x].0
      invariant Gathered(bs, m, i, done)
    {
      var (name, prop) := b.properties[j];
      OwnProp(b, j);
      assert name !in done;
      GatherStep(bs, m, i, done, name, prop);
      if name !in ds {
        var list := if name in m then m[name] else [];
        m := m[name := list + [Appearance(tag, prop, name in b.required)]];
      }
      done := done + {name};
    }
    GatherDone(bs, m, i, done);
  }

  /** Taking in one more property of branch `i`; a discriminator is not recorded at all. */
  lemma GatherStep(bs: seq<Branch>, m: map<string, seq<Appearance>>, i: nat, done: set<string>,
                   name: string, prop: Prop)
    requires i < |bs| && Gathered(bs, m, i, done) && name !in done && PropOf(bs[i], name) == Some(prop)
    ensures var list := if name in m then m[name] else [];
            Gathered(bs, m[name := list + [Appearance(LabelOf(bs, i), prop, name in bs[i].required)]], i, done + {name})
    ensures name in Discriminators(bs) ==> Gathered(bs, m, i, done + {name})
  {
    hide Discriminators, LabelOf, PropOf;
    var list := if name in m then m[name] else [];
    var next := m[name := list + [Appearance(LabelOf(bs, i), prop, name in bs[i].required)]];
    assert name !in Discriminators(bs) ==> GatheredAt(bs, m, name, i);
    assert name !in Discriminators(bs) ==> GatheredAt(bs, next, name, i + 1);
    hide Appearances;
    forall other, n: nat | other != name && n <= |bs| && GatheredAt(bs, m, other, n)
      ensures GatheredAt(bs, next, other, n) {}
    hide GatheredAt;
  }

  lemma GatherDone(bs: seq<Branch>, m: map<string, seq<Appearance>>, i: nat, done: set<string>)
    requires i < |bs| && Gathered(bs, m, i, done) && done == Keys(bs[i])
    ensures Gathered(bs, m, i + 1, {})
  {
    hide Discriminators, LabelOf, Keys, PropOf;
    forall name | name !in done ensures Appearances(bs, name, i + 1) == Appearances(bs, name, i) {
      KeyHasProp(bs[i], name);
    }
  }

  lemma OwnProp(b: Branch, j: nat)
    requires DistinctKeys(b) && j < |b.properties|
    ensures PropOf(b, b.properties[j].0) == Some(b.properties[j].1)
  {
    FirstOfDistinct(b.properties, j);
  }

  lemma {:induction false} FirstOfDistinct(props: seq<(string, Prop)>, j: nat)
    requires j < |props| && forall x, y :: 0 <= x < y < |props| ==> props[x].0 != props[y].0
    ensures PropAt(props, props[j].0) == Some(props[j].1)
  {
    if j > 0 {
      assert props[1..][j - 1] == props[j];
      FirstOfDistinct(props[1..], j - 1);
    }
  }

  lemma NothingGathered(bs: seq<Branch>)
    ensures Gathered(bs, map[], 0, {})
  {}

  lemma KeysOfWellFormed(bs: seq<Branch>, i: nat)
    requires i < |bs| && forall b :: b in bs ==> WellFormed(b)
    ensures DistinctKeys(bs[i])
  {
    assert WellFormed(bs[i]);
  }

  method GatherAll(bs: seq<Branch>, ds: seq<string>) returns (m: map<string, seq<Appearance>>)
    requires (forall b :: b in bs ==> WellFormed(b)) && ds == Discriminators(bs)
    ensures m.Keys !! (set k | k in ds) && Gathered(bs, m, |bs|, {})
  {
    hide *;
    m := map[];
    NothingGathered(bs);
    for i := 0 to |bs|
      invariant m.Keys !! set k | k in ds
      invariant Gathered(bs, m, i, {})
    {
      KeysOfWellFormed(bs, i);
      m := GatherBranch(bs, i, ds, m);
    }
  }

  method PublishDiscriminators(bs: seq<Branch>, ds: seq<string>) returns (properties: map<string, Published>)
    ensures properties == map k | k in ds :: Discriminate(bs, k)
  {
    hide Discriminate;
    properties := map[];
    for d := 0 to |ds|
      invariant properties == map k | k in ds[..d] :: Discriminate(bs, k)
    {
      properties := properties[ds[d] := Discriminate(bs, ds[d])];
    }
    assert ds[..|ds|] == ds;
  }

  method PublishMerged(bs: seq<Branch>, appearances: map<string, seq<Appearance>>, base: map<string, Published>)
    returns (properties: map<string, Published>)
    requires forall k :: k in appearances ==> appearances[k] != []
    ensures properties == base + map k | k in appearances :: Merge(bs, k, appearances[k])
  {
    hide Merge;
    properties := base;
    var rest := appearances.Keys;
    while rest != {}
      invariant rest <= appearances.Keys
      invariant properties == base + map k | k in appearances && k !in rest :: Merge(bs, k, appearances[k])
      decreases rest
    {
      var name :| name in rest;
      properties := properties[name := Merge(bs, name, appearances[name])];
      rest := rest - {name};
    }
  }

  /** The published object: the discriminators' properties, then every other property merged from
      all its appearances, and the keys every branch requires. */
  method FlattenUnionToObject(bs: seq<Branch>) returns (flat: Flat)
    requires forall b :: b in bs ==> WellFormed(b)
    ensures flat == Expected(bs)
  {
    if bs == [] {
      return Flat(map[], []);
    }
    var ds := Discriminators(bs);
    DiscriminatorsAreNames(bs);
    var appearances := GatherAll(bs, ds);
    var properties := PublishDiscriminators(bs, ds);
    properties := PublishMerged(bs, appearances, properties);
    hide *;
    Assembled(bs, appearances, properties);
    flat := Flat(properties, CommonRequired(bs));
  }

  lemma AssembledAt(bs: seq<Branch>, appearances: map<string, seq<Appearance>>, name: string)
    requires forall k :: k in Discriminators(bs) ==> k in Names(bs)
    requires Gathered(bs, appearances, |bs|, {})
    ensures name !in appearances || name !in Discriminators(bs) ==>
              (name in Names(bs) <==> name in Discriminators(bs) || name in appearances)
    ensures ExpectedAt(bs, name) == if name in Discriminators(bs) || name !in appearances
                                    then Discriminate(bs, name) else Merge(bs, name, appearances[name])
  {
    NamesAppear(bs, name, |bs|);
    NamesAre(bs, name);
    hide Discriminators, Names, Discriminate, Appearances;
    assert name !in Discriminators(bs) ==>
      if Appearances(bs, name, |bs|) == [] then name !in appearances
      else name in appearances && appearances[name] == Appearances(bs, name, |bs|);
  }

  lemma Assembled(bs: seq<Branch>, appearances: map<string, seq<Appearance>>, properties: map<string, Published>)
    requires forall k :: k in Discriminators(bs) ==> k in Names(bs)
    requires Gathered(bs, appearances, |bs|, {}) && appearances.Keys !! (set k | k in Discriminators(bs))
    requires forall k :: k in appearances ==> appearances[k] != []
    requires properties == (map k | k in Discriminators(bs) :: Discriminate(bs, k))
                           + map k | k in appearances :: Merge(bs, k, appearances[k])
    ensures Flat(properties, CommonRequired(bs)) == Expected(bs)
  {
    hide Discriminators, Merge, Discriminate, Names, Gathered, CommonRequired, ExpectedAt;
    var want := Expected(bs).properties;
    forall k
      ensures k in properties <==> k in want
      ensures k in want ==> properties[k] == want[k]
    {
      AssembledAt(bs, appearances, k);
    }
  }

  lemma NamesAre(bs: seq<Branch>, name: string)
    ensures name in Names(bs) <==> exists i :: 0 <= i < |bs| && name in Keys(bs[i])
  {
  }

  lemma DiscriminatorsAreNames(bs: seq<Branch>)
    requires bs != [] && forall b :: b in bs ==> WellFormed(b)
    ensures forall k :: k in Discriminators(bs) ==> k in Names(bs)
  {
    assert bs[0] in bs;
  }

  // ---- nothing about a branch is lost ----

  /** Read off the published object: the action must pass this field. */
  predicate Requires(flat: Flat, key: string, tag: Label) {
    key in flat.properties
    && (key in flat.required
        || match flat.properties[key]
           case Discriminator(_, _) => false
           case Merged(_, _, marker) => marker.RequiredFor? && tag in marker.required)
  }

  /** Read off the published object: the action may pass this field or leave it out. */
  predicate Accepts(flat: Flat, key: string, tag: Label) {
    key in flat.properties && key !in flat.required
    && match flat.properties[key]
       case Discriminator(_, _) => false
       case Merged(_, _, marker) =>
         match marker
         case NoMarker => true
         case For(labels) => tag in labels
         case RequiredFor(_, optional) => tag in optional
  }

  function AppearanceIn(bs: seq<Branch>, name: string, i: nat): Appearance
    requires i < |bs| && PropOf(bs[i], name).Some?
  {
    Appearance(LabelOf(bs, i), PropOf(bs[i], name).value, name in bs[i].required)
  }

  /** The appearances are those of the branches that have the property, each once. */
  lemma {:induction false} AppearancesAre(bs: seq<Branch>, name: string, n: nat)
    requires n <= |bs|
    ensures forall i :: 0 <= i < n && PropOf(bs[i], name).Some? ==>
              AppearanceIn(bs, name, i) in Appearances(bs, name, n)
    ensures forall a :: a in Appearances(bs, name, n) ==>
              exists i :: 0 <= i < n && PropOf(bs[i], name).Some? && a == AppearanceIn(bs, name, i)
    ensures |Appearances(bs, name, n)| <= n
    ensures |Appearances(bs, name, n)| == n <==> forall i :: 0 <= i < n ==> PropOf(bs[i], name).Some?
  {
    hide LabelOf, PropOf;
    if n > 0 { AppearancesAre(bs, name, n - 1); }
  }

  lemma LabelsAre(apps: seq<Appearance>, tag: Label)
    ensures tag in Labels(apps) <==> exists a :: a in apps && a.tag == tag
  {
    if tag in Labels(apps) {
      var i :| 0 <= i < |apps| && Labels(apps)[i] == tag;
      assert apps[i] in apps;
    }
    if a :| a in apps && a.tag == tag {
      var i :| 0 <= i < |apps| && apps[i] == a;
      assert Labels(apps)[i] == tag;
    }
  }

  /** Some branch with this label has the field, or requires it. */
  ghost predicate SomeHas(bs: seq<Branch>, tag: Label, name: string) {
    exists j :: 0 <= j < |bs| && LabelOf(bs, j) == tag && name in Keys(bs[j])
  }

  ghost predicate SomeRequires(bs: seq<Branch>, tag: Label, name: string) {
    exists j :: 0 <= j < |bs| && LabelOf(bs, j) == tag && name in bs[j].required
  }

  lemma LabelsHave(bs: seq<Branch>, tag: Label, name: string)
    ensures tag in Labels(Appearances(bs, name, |bs|)) <==> SomeHas(bs, tag, name)
  {
    hide LabelOf, PropOf, Appearances, Keys;
    var apps := Appearances(bs, name, |bs|);
    LabelsAre(apps, tag);
    AppearancesAre(bs, name, |bs|);
    if a :| a in apps && a.tag == tag {
      var k :| 0 <= k < |bs| && PropOf(bs[k], name).Some? && a == AppearanceIn(bs, name, k);
      KeyHasProp(bs[k], name);
    }
    if j :| 0 <= j < |bs| && LabelOf(bs, j) == tag && name in Keys(bs[j]) {
      KeyHasProp(bs[j], name);
      assert AppearanceIn(bs, name, j) in apps;
    }
  }

  lemma LabelsRequire(bs: seq<Branch>, tag: Label, name: string)
    requires forall b :: b in bs ==> WellFormed(b)
    ensures tag in Labels(Filter(Appearances(bs, name, |bs|), (a: Appearance) => a.required))
            <==> SomeRequires(bs, tag, name)
  {
    hide LabelOf, PropOf, Appearances, Keys, Filter, DistinctKeys;
    var apps := Appearances(bs, name, |bs|);
    var demanding := Filter(apps, (a: Appearance) => a.required);
    LabelsAre(demanding, tag);
    AppearancesAre(bs, name, |bs|);
    if a :| a in demanding && a.tag == tag {
      var k :| 0 <= k < |bs| && PropOf(bs[k], name).Some? && a == AppearanceIn(bs, name, k);
      assert name in bs[k].required;
    }
    if j :| 0 <= j < |bs| && LabelOf(bs, j) == tag && name in bs[j].required {
      assert WellFormed(bs[j]);
      KeyHasProp(bs[j], name);
      assert AppearanceIn(bs, name, j) in demanding;
    }
  }

  /** What the marker of a field not required everywhere says to a label. */
  lemma MarkerTells(bs: seq<Branch>, tag: Label, name: string)
    requires (forall b :: b in bs ==> WellFormed(b)) && exists i :: 0 <= i < |bs| && LabelOf(bs, i) == tag
    ensures var (has, needs) := (SomeHas(bs, tag, name), SomeRequires(bs, tag, name));
            match MarkerOf(false, Appearances(bs, name, |bs|), |bs|)
            case NoMarker => has && !needs
            case For(labels) => !needs && (tag in labels <==> has)
            case RequiredFor(required, optional) => (tag in required <==> needs) && (tag in optional <==> has && !needs)
  {
    LabelsHave(bs, tag, name);
    LabelsRequire(bs, tag, name);
    AppearancesAre(bs, name, |bs|);
    hide LabelOf, PropOf, Appearances, Keys, WellFormed, SomeRequires, Filter;
    var i :| 0 <= i < |bs| && LabelOf(bs, i) == tag;
    KeyHasProp(bs[i], name);
  }

  /** What the published object says of a field to a label: required if some branch with that label
      requires it, accepted if none does and some has it. */
  lemma MarkersSpeakPerLabel(bs: seq<Branch>, tag: Label, key: string)
    requires (forall b :: b in bs ==> WellFormed(b)) && exists i :: 0 <= i < |bs| && LabelOf(bs, i) == tag
    ensures Requires(Expected(bs), key, tag) <==> SomeRequires(bs, tag, key)
    ensures Accepts(Expected(bs), key, tag) <==> SomeHas(bs, tag, key) && !SomeRequires(bs, tag, key)
  {
    hide Appearances, LabelOf, Names, Discriminators, WellFormed, Keys, MarkerOf;
    var i :| 0 <= i < |bs| && LabelOf(bs, i) == tag;
    RequiredIsNamed(bs, key);
    NamesAppear(bs, key, |bs|);
    NamesAre(bs, key);
    if key in CommonRequired(bs) {
      assert bs[i] in bs;
    } else {
      MarkerTells(bs, tag, key);
    }
    hide CommonRequired;
  }

  lemma RequiredIsNamed(bs: seq<Branch>, key: string)
    requires forall b :: b in bs ==> WellFormed(b)
    ensures forall i :: 0 <= i < |bs| && key in bs[i].required ==> key in Keys(bs[i])
  {
    forall i | 0 <= i < |bs| ensures WellFormed(bs[i]) { assert bs[i] in bs; }
  }

  /** No other branch with the label of branch `i` has, or requires, a field that it does not. */
  ghost predicate SpeaksForLabel(bs: seq<Branch>, i: nat, key: string)
    requires i < |bs|
  {
    forall j :: 0 <= j < |bs| && LabelOf(bs, j) == LabelOf(bs, i) ==>
      (key in Keys(bs[j]) ==> key in Keys(bs[i])) && (key in bs[j].required ==> key in bs[i].required)
  }

  /** The published object tells what branch `i` requires and accepts of a field. */
  ghost predicate Recovered(bs: seq<Branch>, i: nat, key: string)
    requires i < |bs|
  {
    && (Requires(Expected(bs), key, LabelOf(bs, i)) <==> key in bs[i].required)
    && (Accepts(Expected(bs), key, LabelOf(bs, i)) <==> key in Keys(bs[i]) && key !in bs[i].required)
  }

  /** The published properties are exactly those of the branches, and from the published object
      alone what a branch requires and what it accepts is recovered exactly if and only if no branch
      with the same label has more to say; so always, when the labels are distinct. */
  lemma FlatteningIsLossless(bs: seq<Branch>, i: nat, key: string)
    requires i < |bs| && forall b :: b in bs ==> WellFormed(b)
    ensures Expected(bs).properties.Keys == Names(bs)
    ensures Recovered(bs, i, key) <==> SpeaksForLabel(bs, i, key)
    ensures (forall j :: 0 <= j < |bs| && j != i ==> LabelOf(bs, j) != LabelOf(bs, i)) ==> Recovered(bs, i, key)
  {
    MarkersSpeakPerLabel(bs, LabelOf(bs, i), key);
    RequiredIsNamed(bs, key);
    hide LabelOf, Keys, WellFormed, Requires, Accepts, Names;
  }

  // ---- the discriminator ----

  /** The labels published for a discriminator are its own constants exactly when the first
      discriminator has a name and agrees with it in every branch; so a sole discriminator with a
      name is always told right. */
  lemma DiscriminatorToldIff(bs: seq<Branch>, key: string)
    requires key in Discriminators(bs)
    ensures forall i :: 0 <= i < |bs| ==> Constant(bs[i], key).Some? && Constant(bs[i], Discriminators(bs)[0]).Some?
    ensures (forall i :: 0 <= i < |bs| ==> Discriminate(bs, key).labels[i] == Const(Constant(bs[i], key).value.text))
       <==> (Discriminators(bs)[0] != "" &&
             forall i :: 0 <= i < |bs| ==>
               Constant(bs[i], key).value.text == Constant(bs[i], Discriminators(bs)[0]).value.text)
  {
    var first := Discriminators(bs)[0];
    assert first in Discriminators(bs);
    forall i | 0 <= i < |bs|
      ensures Constant(bs[i], key).Some? && Constant(bs[i], first).Some?
      ensures LabelOf(bs, i) == if first == "" then Variant(i + 1) else Const(Constant(bs[i], first).value.text)
    {
      assert bs[i] in bs;
    }
    assert bs != [];
    hide Discriminators, Constant, LabelOf;
    assert Discriminate(bs, key).labels[0] == LabelOf(bs, 0);
  }

  /** A second discriminator is told the first one's constants. */
  lemma SecondDiscriminatorIsMistold()
    ensures var p := (v: string) => Prop(Some(Text(v)), "", None, "");
            var bs := [Branch([("action", p("move")), ("mode", p("fast"))], ["action", "mode"])];
            Discriminators(bs) == ["action", "mode"] && Constant(bs[0], "mode") == Some(Text("fast"))
            && Discriminate(bs, "mode").labels == [Const("move")]
  {
    var p := (v: string) => Prop(Some(Text(v)), "", None, "");
    var b := Branch([("action", p("move")), ("mode", p("fast"))], ["action", "mode"]);
    assert b.properties[1..] == [("mode", p("fast"))];
    assert PropAt(b.properties[1..], "mode") == Some(p("fast"));
    assert Constant(b, "action") == Some(Text("move")) && Constant(b, "mode") == Some(Text("fast"));
    hide *;
    TwoDiscriminators(b);
  }

  lemma TwoDiscriminators(b: Branch)
    requires b.required == ["action", "mode"]
    requires Constant(b, "action") == Some(Text("move")) && Constant(b, "mode") == Some(Text("fast"))
    ensures Discriminators([b]) == ["action", "mode"] && Discriminate([b], "mode").labels == [Const("move")]
  {
    hide PropOf, Constant, Filter;
    var bs := [b];
    FilterAll(b.required, k => forall b :: b in bs ==> k in b.required);
    assert CommonRequired(bs) == b.required;
    hide CommonRequired;
    FilterAll(b.required, k => forall b :: b in bs ==> Constant(b, k).Some?);
    assert Discriminators(bs) == b.required;
    hide Discriminators;
    assert LabelOf([b], 0) == Const("move");
  }

  /** No branch's wording of a field is lost: it is the shared text, or stands under its label. */
  lemma WordingIsKept(apps: seq<Appearance>, a: Appearance)
    requires a in apps && a.prop.description != ""
    ensures match TextOf(apps)
            case Shared(text) => text == a.prop.description
            case Labelled(segments) => (a.tag, a.prop.description) in segments
  {
    var described := Filter(apps, (x: Appearance) => x.prop.description != "");
    assert a in described;
    var i :| 0 <= i < |described| && described[i] == a;
    assert Texts(apps)[i] == (a.tag, a.prop.description);
  }

  // ---- what else is published ----

  /** A discriminator is published with one label and one text per branch: the text is that branch's own
      description of it, and the label the branch's first constant, or its number if the first
      discriminator has no name. */
  lemma DiscriminatorsArePublished(bs: seq<Branch>, key: string, i: nat)
    requires (forall b :: b in bs ==> WellFormed(b)) && key in Discriminators(bs) && i < |bs|
    ensures key in Expected(bs).properties && Expected(bs).properties[key].Discriminator?
    ensures var (p, first) := (Expected(bs).properties[key], Discriminators(bs)[0]);
            && |p.labels| == |bs| && |p.texts| == |bs|
            && (exists prop :: (key, prop) in bs[i].properties)
            && (forall prop :: (key, prop) in bs[i].properties ==> p.texts[i] == prop.description)
            && Constant(bs[i], first).Some?
            && p.labels[i] == if first == "" then Variant(i + 1) else Const(Constant(bs[i], first).value.text)
  {
    DiscriminatorsAreNames(bs);
    PublishedAt(bs, key);
    HasDiscriminators(bs, key, i);
    LabelIs(bs, i);
    hide Expected, Names, Discriminators, LabelOf, Constant;
    PropAtFinds(bs[i].properties, key);
    forall prop | (key, prop) in bs[i].properties ensures PropOf(bs[i], key) == Some(prop) {
      OwnPropIs(bs, i, key, prop);
    }
  }

  lemma HasDiscriminators(bs: seq<Branch>, key: string, i: nat)
    requires key in Discriminators(bs) && i < |bs|
    ensures PropOf(bs[i], key).Some? && Constant(bs[i], Discriminators(bs)[0]).Some?
  {
    assert bs[i] in bs && Discriminators(bs)[0] in Discriminators(bs);
    hide Discriminators, PropOf;
  }

  lemma LabelIs(bs: seq<Branch>, i: nat)
    requires i < |bs| && Discriminators(bs) != [] && Constant(bs[i], Discriminators(bs)[0]).Some?
    ensures var first := Discriminators(bs)[0];
            LabelOf(bs, i) == if first == "" then Variant(i + 1) else Const(Constant(bs[i], first).value.text)
  {
    hide Discriminators, Constant;
  }

  lemma OwnPropIs(bs: seq<Branch>, i: nat, key: string, prop: Prop)
    requires i < |bs| && (forall b :: b in bs ==> WellFormed(b)) && (key, prop) in bs[i].properties
    ensures PropOf(bs[i], key) == Some(prop)
  {
    KeysOfWellFormed(bs, i);
    var j :| 0 <= j < |bs[i].properties| && bs[i].properties[j] == (key, prop);
    OwnProp(bs[i], j);
  }

  /** How a branch words a field; empty if it says nothing of it. */
  function WordingIn(b: Branch, key: string): string {
    if PropOf(b, key).Some? then PropOf(b, key).value.description else ""
  }

  /** `at` lists, in order, the branches among the first `n` that describe the field, and `texts` has
      each one's label and wording. */
  ghost predicate ListsWordings(bs: seq<Branch>, key: string, n: nat, at: seq<nat>, texts: seq<(Label, string)>)
    requires n <= |bs|
  {
    && |texts| == |at| && (forall j, k :: 0 <= j < k < |at| ==> at[j] < at[k])
    && (forall k :: 0 <= k < |at| ==> at[k] < n && WordingIn(bs[at[k]], key) != ""
                                      && texts[k] == (LabelOf(bs, at[k]), WordingIn(bs[at[k]], key)))
    && (forall i :: 0 <= i < n && WordingIn(bs[i], key) != "" ==> i in at)
  }

  lemma {:induction false} TextsListWordings(bs: seq<Branch>, key: string, n: nat) returns (at: seq<nat>)
    requires n <= |bs|
    ensures ListsWordings(bs, key, n, at, Texts(Appearances(bs, key, n)))
  {
    hide ListsWordings, Texts, Appearances, LabelOf, WordingIn;
    at := [];
    if n > 0 {
      var front := TextsListWordings(bs, key, n - 1);
      at := front + if WordingIn(bs[n - 1], key) != "" then [n - 1] else [];
      TextsOneMore(bs, key, n);
      WordingsOneMore(bs, key, n, front, Texts(Appearances(bs, key, n - 1)));
    } else {
      NoWordings(bs, key);
    }
  }

  lemma NoWordings(bs: seq<Branch>, key: string)
    ensures ListsWordings(bs, key, 0, [], Texts(Appearances(bs, key, 0)))
  {}

  lemma TextsOneMore(bs: seq<Branch>, key: string, n: nat)
    requires 0 < n <= |bs|
    ensures var text := WordingIn(bs[n - 1], key);
            Texts(Appearances(bs, key, n)) == Texts(Appearances(bs, key, n - 1))
              + if text != "" then [(LabelOf(bs, n - 1), text)] else []
  {
    hide LabelOf, PropOf, Filter;
    var (apps, front) := (Appearances(bs, key, n), Appearances(bs, key, n - 1));
    if PropOf(bs[n - 1], key).Some? {
      var described := (a: Appearance) => a.prop.description != "";
      FilterLast(apps, described);
      assert apps[..|apps| - 1] == front;
    } else {
      assert apps == front;
    }
  }

  lemma WordingsOneMore(bs: seq<Branch>, key: string, n: nat, front: seq<nat>, texts: seq<(Label, string)>)
    requires 0 < n <= |bs| && ListsWordings(bs, key, n - 1, front, texts)
    ensures var text := WordingIn(bs[n - 1], key);
            ListsWordings(bs, key, n, front + (if text != "" then [n - 1] else []),
                          texts + if text != "" then [(LabelOf(bs, n - 1), text)] else [])
  {
    hide LabelOf, WordingIn;
  }

  /** The text published for an ordinary field: empty if no branch describes it, the one wording there
      is if all that do agree, and otherwise every wording under its branch's label, in order. */
  lemma WordingIsPublished(bs: seq<Branch>, key: string) returns (at: seq<nat>)
    requires key in Names(bs) && key !in Discriminators(bs)
    ensures Expected(bs).properties[key].Merged?
    ensures match Expected(bs).properties[key].text
            case Shared(text) =>
              && (forall i :: 0 <= i < |bs| && WordingIn(bs[i], key) != "" ==> WordingIn(bs[i], key) == text)
              && (text != "" ==> exists i :: 0 <= i < |bs| && WordingIn(bs[i], key) == text)
            case Labelled(segments) =>
              && ListsWordings(bs, key, |bs|, at, segments)
              && exists j, k :: 0 <= j < k < |at| && WordingIn(bs[at[j]], key) != WordingIn(bs[at[k]], key)
  {
    MergedAt(bs, key);
    hide Expected, Discriminators, Names, Merge, LabelOf, WordingIn, Appearances, Texts;
    at := TextsListWordings(bs, key, |bs|);
    var texts := Texts(Appearances(bs, key, |bs|));
    if texts != [] && !OneText(texts) {
      var k :| 0 <= k < |texts| && texts[k].1 != texts[0].1;
      assert WordingIn(bs[at[0]], key) != WordingIn(bs[at[k]], key);
    } else {
      forall i | 0 <= i < |bs| && WordingIn(bs[i], key) != ""
        ensures texts != [] && WordingIn(bs[i], key) == texts[0].1
      {
        var k :| 0 <= k < |at| && at[k] == i;
        assert texts[k].1 == texts[0].1;
      }
      if texts != [] { assert WordingIn(bs[at[0]], key) == texts[0].1; }
    }
  }

  lemma MergedAt(bs: seq<Branch>, key: string)
    requires key in Names(bs) && key !in Discriminators(bs)
    ensures var apps := Appearances(bs, key, |bs|);
            && apps != [] && key in Expected(bs).properties
            && Expected(bs).properties[key]
               == Merged(apps[|apps| - 1].prop, TextOf(apps), MarkerOf(key in CommonRequired(bs), apps, |bs|))
  {
    PublishedAt(bs, key);
    NamesAre(bs, key);
    NamesAppear(bs, key, |bs|);
    hide Expected, Names, Discriminators, Appearances, TextOf, MarkerOf, CommonRequired, Keys;
  }

  lemma AppearancesAreCounted(bs: seq<Branch>, key: string)
    ensures |Appearances(bs, key, |bs|)| <= |bs|
    ensures |Appearances(bs, key, |bs|)| == |bs| <==> forall i :: 0 <= i < |bs| ==> key in Keys(bs[i])
  {
    hide LabelOf, Keys, PropOf, Appearances;
    AppearancesAre(bs, key, |bs|);
    forall i | 0 <= i < |bs| ensures key in Keys(bs[i]) <==> PropOf(bs[i], key).Some? { KeyHasProp(bs[i], key); }
  }

  /** Which marker an ordinary field gets: none if every branch requires it, or none does and all have
      it; "required for" if some but not all require it; "for" if none does and not all have it. */
  lemma MarkerKindIs(bs: seq<Branch>, key: string)
    requires key in Names(bs) && key !in Discriminators(bs) && forall b :: b in bs ==> WellFormed(b)
    ensures Expected(bs).properties[key].Merged?
    ensures var marker := Expected(bs).properties[key].marker;
            var everyHas := forall i :: 0 <= i < |bs| ==> key in Keys(bs[i]);
            var everyNeeds := forall i :: 0 <= i < |bs| ==> key in bs[i].required;
            var someNeeds := exists i :: 0 <= i < |bs| && key in bs[i].required;
            && (marker.NoMarker? <==> everyNeeds || (!someNeeds && everyHas))
            && (marker.RequiredFor? <==> someNeeds && !everyNeeds)
            && (marker.For? <==> !someNeeds && !everyHas)
  {
    MergedAt(bs, key);
    hide Expected, Discriminators, Names, Merge, LabelOf, Keys, PropOf, WellFormed;
    var apps := Appearances(bs, key, |bs|);
    AppearancesAreCounted(bs, key);
    NeedsAppear(bs, key);
    CommonIs(bs, key);
    hide Appearances, CommonRequired;
  }

  lemma CommonIs(bs: seq<Branch>, key: string)
    requires bs != []
    ensures key in CommonRequired(bs) <==> forall i :: 0 <= i < |bs| ==> key in bs[i].required
  {
    if key in CommonRequired(bs) {
      forall i | 0 <= i < |bs| ensures key in bs[i].required { assert bs[i] in bs; }
    }
  }

  lemma NeedsAppear(bs: seq<Branch>, key: string)
    requires forall b :: b in bs ==> WellFormed(b)
    ensures Labels(Filter(Appearances(bs, key, |bs|), (a: Appearance) => a.required)) != []
            <==> exists i :: 0 <= i < |bs| && key in bs[i].required
  {
    var apps := Appearances(bs, key, |bs|);
    var needed := Filter(apps, (a: Appearance) => a.required);
    AppearancesAre(bs, key, |bs|);
    RequiredIsNamed(bs, key);
    hide Appearances, LabelOf, PropOf, Filter, Keys, WellFormed;
    if i :| 0 <= i < |bs| && key in bs[i].required {
      KeyHasProp(bs[i], key);
      assert AppearanceIn(bs, key, i) in needed;
    }
    if needed != [] {
      assert needed[0] in needed && needed[0] in apps;
    }
  }

  /** Without a discriminator the branches are numbered from 1, and what each requires and accepts is
      told under its number. */
  lemma UnlabelledBranchesAreNumbered(bs: seq<Branch>, i: nat, key: string)
    requires i < |bs| && (forall b :: b in bs ==> WellFormed(b)) && Discriminators(bs) == []
    ensures Requires(Expected(bs), key, Variant(i + 1)) <==> key in bs[i].required
    ensures Accepts(Expected(bs), key, Variant(i + 1)) <==> key in Keys(bs[i]) && key !in bs[i].required
  {
    forall j | 0 <= j < |bs| ensures LabelOf(bs, j) == Variant(j + 1) {}
    FlatteningIsLossless(bs, i, key);
    hide Discriminators, Expected, Requires, Accepts, Keys, WellFormed;
  }

  // ---- error messages ----

  function Digits(n: nat): string {
    (if n < 10 then "" else Digits(n / 10)) + ["0123456789"[n % 10]]
  }

  /** A label as text. */
  function LabelText(tag: Label): string {
    match tag
    case Const(value) => value
    case Variant(n) => "variant " + Digits(n)
  }

  function ValidActions(flat: Flat): Option<seq<string>> {
    if "action" !in flat.properties then None else
    match flat.properties["action"]
    case Discriminator(labels, _) => Some(seq(|labels|, i requires 0 <= i < |labels| => LabelText(labels[i])))
    case Merged(base, _, _) => base.enumeration
  }

  function FindBranch(bs: seq<Branch>, action: string): Option<Branch> {
    if bs == [] then None
    else if Constant(bs[0], "action") == Some(Text(action)) then Some(bs[0])
    else FindBranch(bs[1..], action)
  }

  function KeySeq(b: Branch): seq<string> {
    seq(|b.properties|, i requires 0 <= i < |b.properties| => b.properties[i].0)
  }

  /** The required and the optional parameter names of one action. */
  function BranchRequirements(bs: seq<Branch>, action: string): Option<(seq<string>, seq<string>)> {
    match FindBranch(bs, action)
    case None => None
    case Some(b) =>
      var props := Filter(KeySeq(b), k => k != "action");
      var required := Filter(b.required, k => k != "action");
      Some((required, Filter(props, k => k !in required)))
  }

  /** `i` is the first branch whose action is this string. */
  predicate FirstWith(bs: seq<Branch>, action: string, i: nat)
    requires i < |bs|
  {
    Constant(bs[i], "action") == Some(Text(action))
    && forall j :: 0 <= j < i ==> Constant(bs[j], "action") != Some(Text(action))
  }

  lemma {:induction false} FindBranchFinds(bs: seq<Branch>, i: nat, action: string)
    requires i < |bs| && FirstWith(bs, action, i)
    ensures FindBranch(bs, action) == Some(bs[i])
  {
    hide Constant;
    if i > 0 {
      assert forall j :: 0 <= j < i - 1 ==> Constant(bs[1..][j], "action") == Constant(bs[j + 1], "action");
      FindBranchFinds(bs[1..], i - 1, action);
    }
  }

  lemma {:induction false} FindBranchFindsNone(bs: seq<Branch>, action: string)
    requires forall i :: 0 <= i < |bs| ==> Constant(bs[i], "action") != Some(Text(action))
    ensures FindBranch(bs, action) == None
  {
    hide Constant;
    if bs != [] {
      forall i | 0 <= i < |bs| - 1 ensures Constant(bs[1..][i], "action") != Some(Text(action)) {
        assert bs[1..][i] == bs[i + 1];
      }
      FindBranchFindsNone(bs[1..], action);
    }
  }

  /** For any union the error messages describe an action exactly when it is a branch's constant and
      a string; they then name the fields of the first such branch, but for `action` itself; and these
      are what the published markers say that the branch's label requires and accepts if and only if no
      branch of that label has more to say. The label is the action if `action` discriminates first. */
  lemma RequirementsMatchMarkers(bs: seq<Branch>, action: string, i: nat, key: string)
    requires forall b :: b in bs ==> WellFormed(b)
    ensures (forall j :: 0 <= j < |bs| ==> Constant(bs[j], "action") != Some(Text(action)))
            ==> BranchRequirements(bs, action) == None
    ensures i < |bs| && FirstWith(bs, action, i) ==>
            var (r, tag, own) := (BranchRequirements(bs, action), LabelOf(bs, i), "action" in bs[i].required);
            && r.Some?
            && (SpeaksForLabel(bs, i, key) <==>
                  && (key in r.value.0 || (key == "action" && own) <==> Requires(Expected(bs), key, tag))
                  && (key in r.value.1 || (key == "action" && !own) <==> Accepts(Expected(bs), key, tag)))
            && (Discriminators(bs) != [] && Discriminators(bs)[0] == "action" ==> tag == Const(action) && own)
  {
    if forall j :: 0 <= j < |bs| ==> Constant(bs[j], "action") != Some(Text(action)) {
      FindBranchFindsNone(bs, action);
    }
    if i < |bs| && FirstWith(bs, action, i) {
      FindBranchFinds(bs, i, action);
      if Discriminators(bs) != [] && Discriminators(bs)[0] == "action" { LabelIsConstant(bs, i); }
      FlatteningIsLossless(bs, i, key);
      RequirementsOfFound(bs, action, bs[i], key);
      ConstantIsField(bs[i], "action");
      hide Expected, Requires, Accepts, SpeaksForLabel, LabelOf, Constant, Discriminators, WellFormed;
      hide BranchRequirements, Keys;
    }
  }

  lemma ConstantIsField(b: Branch, key: string)
    requires Constant(b, key).Some?
    ensures key in Keys(b)
  {
    KeyHasProp(b, key);
  }

  lemma RequirementsOfFound(bs: seq<Branch>, action: string, b: Branch, key: string)
    requires FindBranch(bs, action) == Some(b)
    ensures var r := BranchRequirements(bs, action);
            && r.Some?
            && (key in r.value.0 <==> key in b.required && key != "action")
            && (key in r.value.1 <==> key in Keys(b) && key !in b.required && key != "action")
  {
    hide Filter, FindBranch;
    KeySeqIs(b, key);
  }

  /** Branch `n` is the last one with an `action` field. */
  predicate LastWithAction(bs: seq<Branch>, n: nat) {
    n < |bs| && "action" in Keys(bs[n]) && forall m :: n < m < |bs| ==> "action" !in Keys(bs[m])
  }

  /** What `validActions` lists, for any union: the labels, if `action` is a discriminator; the
      enumeration of its last appearance, if it is an ordinary field; nothing, if it is neither. */
  lemma ValidActionsAre(bs: seq<Branch>, n: nat)
    requires forall b :: b in bs ==> WellFormed(b)
    ensures "action" in Discriminators(bs) ==>
      var actions := ValidActions(Expected(bs));
      actions.Some? && |actions.value| == |bs| &&
      forall i :: 0 <= i < |bs| ==> actions.value[i] == LabelText(LabelOf(bs, i))
    ensures "action" !in Discriminators(bs) && LastWithAction(bs, n) ==>
      PropOf(bs[n], "action").Some? && ValidActions(Expected(bs)) == PropOf(bs[n], "action").value.enumeration
    ensures "action" !in Names(bs) ==> ValidActions(Expected(bs)) == None
  {
    hide Expected, Names, Discriminators, LabelOf, LabelText, Keys, ExpectedAt;
    PublishedAt(bs, "action");
    if "action" in Discriminators(bs) {
      ActionIsDiscriminator(bs);
    } else if LastWithAction(bs, n) {
      LastBranchWins(bs, "action", n);
    }
  }

  /** If `action` discriminates first, these are the branches' own constants. */
  lemma ValidActionsAreConstants(bs: seq<Branch>, i: nat)
    requires (forall b :: b in bs ==> WellFormed(b)) && i < |bs|
    requires Discriminators(bs) != [] && Discriminators(bs)[0] == "action"
    ensures var actions := ValidActions(Expected(bs));
            && actions.Some? && |actions.value| == |bs| && Constant(bs[i], "action").Some?
            && actions.value[i] == Constant(bs[i], "action").value.text
  {
    LabelIsConstant(bs, i);
    hide Expected, Constant, LabelOf, ValidActions, WellFormed;
    ValidActionsAre(bs, i);
    hide Discriminators;
  }

  lemma ActionIsDiscriminator(bs: seq<Branch>)
    requires (forall b :: b in bs ==> WellFormed(b)) && "action" in Discriminators(bs)
    ensures "action" in Names(bs) && ExpectedAt(bs, "action") == Discriminate(bs, "action")
  {
    assert bs != [];
    DiscriminatorsAreNames(bs);
    hide Discriminators, Names, Discriminate;
  }

  /** An ordinary field is published with the structure its last branch gives it. */
  lemma LastBranchWins(bs: seq<Branch>, key: string, n: nat)
    requires key !in Discriminators(bs) && n < |bs| && key in Keys(bs[n])
    requires forall m :: n < m < |bs| ==> key !in Keys(bs[m])
    ensures key in Expected(bs).properties && PropOf(bs[n], key).Some?
    ensures Expected(bs).properties[key].Merged? && Expected(bs).properties[key].base == PropOf(bs[n], key).value
  {
    LastAppearance(bs, key, n, |bs|);
    NamesAre(bs, key);
    MergedAt(bs, key);
    hide Expected, Discriminators, Names, Appearances, Keys, PropOf, TextOf, MarkerOf, CommonRequired;
  }

  lemma PublishedAt(bs: seq<Branch>, key: string)
    ensures key in Expected(bs).properties <==> key in Names(bs)
    ensures key in Names(bs) ==> Expected(bs).properties[key] == ExpectedAt(bs, key)
  {
    hide Names, ExpectedAt;
  }

  lemma {:induction false} LastAppearance(bs: seq<Branch>, name: string, n: nat, k: nat)
    requires n < k <= |bs| && name in Keys(bs[n]) && forall m :: n < m < k ==> name !in Keys(bs[m])
    ensures PropOf(bs[n], name).Some? && Appearances(bs, name, k) != []
    ensures Appearances(bs, name, k)[|Appearances(bs, name, k)| - 1] == AppearanceIn(bs, name, n)
  {
    hide Keys, PropOf, LabelOf;
    KeyHasProp(bs[n], name);
    KeyHasProp(bs[k - 1], name);
    if n < k - 1 { LastAppearance(bs, name, n, k - 1); }
  }

  lemma LabelIsConstant(bs: seq<Branch>, i: nat)
    requires i < |bs| && Discriminators(bs) != [] && Discriminators(bs)[0] == "action"
    ensures Constant(bs[i], "action").Some? && LabelOf(bs, i) == Const(Constant(bs[i], "action").value.text)
    ensures "action" in bs[i].required
  {
    assert "action" in Discriminators(bs) && bs[i] in bs;
  }

  lemma KeySeqIs(b: Branch, key: string)
    ensures key in KeySeq(b) <==> key in Keys(b)
  {
    if key in Keys(b) {
      var i :| 0 <= i < |b.properties| && b.properties[i].0 == key;
      assert KeySeq(b)[i] == key;
    }
  }
}

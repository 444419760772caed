/** Version ordering, and which addon a project ends up with. */
module Installer {
  import opened Options

  // ---- versions ----

  /** What `Number` makes of one dot-separated part. */
  datatype Part = NotANumber | Number(value: real) | Infinite(positive: bool)

  type Version = seq<Part>

  /** A part as compared: `part || 0`, with the infinities at the ends of the scale. */
  datatype Weight = Weight(scale: int, value: real)

  const ZERO := Weight(0, 0.0)

  function WeightOf(p: Part): Weight {
    match p
    case NotANumber => ZERO
    case Number(v) => Weight(0, v)
    case Infinite(positive) => Weight(if positive then 1 else -1, 0.0)
  }

  predicate Heavier(x: Weight, y: Weight) {
    x.scale > y.scale || (x.scale == y.scale && x.value > y.value)
  }

  /** Part `i` of a version; parts past the end count as zero. */
  function At(v: Version, i: nat): Weight {
    if i < |v| then WeightOf(v[i]) else ZERO
  }

  predicate Agree(a: Version, b: Version, n: nat) {
    forall i: nat | i < n :: At(a, i) == At(b, i)
  }

  function Longer(a: Version, b: Version): nat {
    if |a| > |b| then |a| else |b|
  }

  /** `compareVersions`: the first part that differs decides. */
  method CompareVersions(a: Version, b: Version) returns (order: int)
    ensures order == Compare(a, b)
  {
    for i := 0 to Longer(a, b)
      invariant Compare(a, b) == CompareFrom(a, b, i)
    {
      var numA := if i < |a| then WeightOf(a[i]) else ZERO;
      var numB := if i < |b| then WeightOf(b[i]) else ZERO;
      if Heavier(numA, numB) { return 1; }
      if Heavier(numB, numA) { return -1; }
    }
    return 0;
  }

  function CompareFrom(a: Version, b: Version, i: nat): int
    decreases Longer(a, b) - i
  {
    if i >= Longer(a, b) then 0
    else if Heavier(At(a, i), At(b, i)) then 1
    else if Heavier(At(b, i), At(a, i)) then -1
    else CompareFrom(a, b, i + 1)
  }

  function Compare(a: Version, b: Version): int {
    CompareFrom(a, b, 0)
  }

  /** A comparison is settled at the first part where the versions differ. */
  lemma {:induction false} SettledFrom(a: Version, b: Version, i: nat) returns (k: nat)
    requires Agree(a, b, i)
    ensures Agree(a, b, k)
    ensures CompareFrom(a, b, i) == 0 ==> k >= Longer(a, b)
    ensures CompareFrom(a, b, i) == 1 ==> Heavier(At(a, k), At(b, k))
    ensures CompareFrom(a, b, i) == -1 ==> Heavier(At(b, k), At(a, k))
    ensures CompareFrom(a, b, i) in {-1, 0, 1}
    decreases Longer(a, b) - i
  {
    if i >= Longer(a, b) || Heavier(At(a, i), At(b, i)) || Heavier(At(b, i), At(a, i)) {
      k := i;
    } else {
      k := SettledFrom(a, b, i + 1);
    }
  }

  /** Conversely, a first difference at `k` fixes the outcome. */
  lemma {:induction false} DecidedAt(a: Version, b: Version, k: nat, i: nat)
    requires i <= k && Agree(a, b, k)
    ensures Heavier(At(a, k), At(b, k)) ==> CompareFrom(a, b, i) == 1
    ensures Heavier(At(b, k), At(a, k)) ==> CompareFrom(a, b, i) == -1
    ensures k >= Longer(a, b) ==> CompareFrom(a, b, i) == 0
    decreases k - i
  {
    if i < k { DecidedAt(a, b, k, i + 1); }
  }

  /** Versions compare equal exactly when no part differs, missing parts being zero. */
  lemma EqualIff(a: Version, b: Version)
    ensures Compare(a, b) == 0 <==> Agree(a, b, Longer(a, b))
  {
    hide CompareFrom;
    var k := SettledFrom(a, b, 0);
    if Agree(a, b, Longer(a, b)) {
      DecidedAt(a, b, Longer(a, b), 0);
    }
  }

  /** One part is larger than another, one that is no number standing for zero. */
  predicate Larger(p: Part, q: Part) {
    match (p, q)
    case (Number(x), Number(y)) => x > y
    case (Number(x), NotANumber) => x > 0.0
    case (NotANumber, Number(y)) => 0.0 > y
    case (NotANumber, NotANumber) => false
    case (Infinite(positive), _) => positive && q != p
    case (_, Infinite(positive)) => !positive
  }

  /** The first parts that differ decide: the version with the larger one is the newer. */
  lemma LargerPartWins(a: Version, b: Version, k: nat)
    requires k < |a| && k < |b| && a[..k] == b[..k] && Larger(a[k], b[k])
    ensures Compare(a, b) == 1 && Compare(b, a) == -1
  {
    forall i: nat | i < k ensures At(a, i) == At(b, i) {
      assert a[i] == a[..k][i] && b[i] == b[..k][i];
    }
    DecidedAt(a, b, k, 0);
    DecidedAt(b, a, k, 0);
  }

  /** A part that is no number compares as zero. */
  lemma NoNumberIsZero(a: Version, k: nat)
    requires k < |a| && a[k] == NotANumber
    ensures Compare(a, a[k := Number(0.0)]) == 0
  {
    var b := a[k := Number(0.0)];
    forall i: nat ensures At(a, i) == At(b, i) {}
    EqualIff(a, b);
  }

  lemma Antisymmetric(a: Version, b: Version)
    ensures Compare(a, b) == -Compare(b, a) && -1 <= Compare(a, b) <= 1
  {
    hide CompareFrom, At;
    var k := SettledFrom(a, b, 0);
    DecidedAt(b, a, k, 0);
  }

  /** No newer than, chained, is no newer than; strictly so if either step is strict. */
  lemma Transitive(a: Version, b: Version, c: Version)
    requires Compare(a, b) <= 0 && Compare(b, c) <= 0
    ensures Compare(a, c) <= 0
    ensures Compare(a, b) < 0 || Compare(b, c) < 0 ==> Compare(a, c) < 0
  {
    hide CompareFrom;
    var i := SettledFrom(a, b, 0);
    var j := SettledFrom(b, c, 0);
    if Compare(a, b) == 0 && Compare(b, c) == 0 {
      PastTheEnd(a, b, i, i + j + Longer(a, c));
      PastTheEnd(b, c, j, i + j + Longer(a, c));
      DecidedAt(a, c, i + j + Longer(a, c), 0);
    } else if Compare(a, b) == 0 {
      PastTheEnd(a, b, i, i + j + 1);
      DecidedAt(a, c, j, 0);
    } else if Compare(b, c) == 0 {
      PastTheEnd(b, c, j, i + j + 1);
      DecidedAt(a, c, i, 0);
    } else {
      DecidedAt(a, c, if i < j then i else j, 0);
    }
  }

  lemma PastTheEnd(a: Version, b: Version, k: nat, n: nat)
    requires Agree(a, b, k) && k >= Longer(a, b)
    ensures Agree(a, b, n)
  {}

  /** Trailing parts that read as zero, or not as numbers at all, change no comparison. */
  lemma TrailingZerosDoNotMatter(a: Version, zeros: Version, b: Version)
    requires forall i :: 0 <= i < |zeros| ==> WeightOf(zeros[i]) == ZERO
    ensures Compare(a + zeros, b) == Compare(a, b) && Compare(a + zeros, a) == 0
  {
    hide CompareFrom;
    forall i: nat ensures At(a + zeros, i) == At(a, i) {}
    var k := SettledFrom(a, b, 0);
    var n := k + Longer(a + zeros, b);
    if Compare(a, b) == 0 {
      PastTheEnd(a, b, k, n);
      DecidedAt(a + zeros, b, n, 0);
    } else {
      DecidedAt(a + zeros, b, k, 0);
    }
    DecidedAt(a + zeros, a, Longer(a + zeros, a), 0);
  }

  // ---- installing ----

  /** A file, and what the `version="..."` line of it reads, if it has one. */
  datatype File = File(text: string, version: Option<Version>)

  type Files = map<string, File>

  const CFG := "plugin.cfg"

  function PluginVersion(files: Files): Option<Version> {
    if CFG in files then files[CFG].version else None
  }

  datatype Reason = NoSuchPath | NotAProject | NoBundle | NoBundledVersion

  datatype Outcome =
    | Failed(reason: Reason)
    | SkippedNewer(installed: Version)
    | SkippedEqual(installed: Version)
    | Installed(installed: Version)
    | Updated(installed: Version, previous: Version)
    | Downgraded(installed: Version, previous: Version)

  /** A project directory, with the contents of `addons/godot_mcp` if there is one. */
  class Project {
    var pathExists: bool
    var hasProjectFile: bool
    var addon: Option<Files>

    /** `installAddon`. */
    method InstallAddon(bundle: Option<Files>, force: bool) returns (outcome: Outcome)
      modifies this`addon
      ensures (outcome, addon) == Attempt(pathExists, hasProjectFile, old(addon), bundle, force)
    {
      if !pathExists { return Failed(NoSuchPath); }
      if !hasProjectFile { return Failed(NotAProject); }
      if bundle == None { return Failed(NoBundle); }
      var bundledVersion := PluginVersion(bundle.value);
      if bundledVersion == None { return Failed(NoBundledVersion); }
      var previousVersion: Option<Version> := None;
      if addon.Some? && CFG in addon.value {
        previousVersion := PluginVersion(addon.value);
        if previousVersion.Some? {
          var comparison := CompareVersions(bundledVersion.value, previousVersion.value);
          if comparison < 0 && !force { return SkippedNewer(previousVersion.value); }
          if comparison == 0 { return SkippedEqual(previousVersion.value); }
        }
        addon := None;
      }
      addon := Some((if addon.Some? then addon.value else map[]) + bundle.value);
      assert addon.value == Replaced(old(addon), bundle.value);
      if previousVersion.Some? {
        var comparison := CompareVersions(bundledVersion.value, previousVersion.value);
        if comparison < 0 { return Downgraded(bundledVersion.value, previousVersion.value); }
        return Updated(bundledVersion.value, previousVersion.value);
      }
      return Installed(bundledVersion.value);
    }
  }

  function Current(addon: Option<Files>): Option<Version> {
    if addon.Some? then PluginVersion(addon.value) else None
  }

  /** The directory after a copy: a recognised addon is removed first, anything else copied over. */
  function Replaced(addon: Option<Files>, bundle: Files): Files {
    if addon.Some? && CFG !in addon.value then addon.value + bundle else bundle
  }

  function Attempt(pathExists: bool, hasProjectFile: bool, addon: Option<Files>, bundle: Option<Files>, force: bool)
    : (Outcome, Option<Files>)
  {
    if !pathExists then (Failed(NoSuchPath), addon)
    else if !hasProjectFile then (Failed(NotAProject), addon)
    else if bundle == None then (Failed(NoBundle), addon)
    else match PluginVersion(bundle.value)
      case None => (Failed(NoBundledVersion), addon)
      case Some(new_) =>
        var after := Some(Replaced(addon, bundle.value));
        match Current(addon)
        case None => (Installed(new_), after)
        case Some(old_) =>
          if Compare(new_, old_) == 0 then (SkippedEqual(old_), addon)
          else if Compare(new_, old_) > 0 then (Updated(new_, old_), after)
          else if force then (Downgraded(new_, old_), after)
          else (SkippedNewer(old_), addon)
  }

  /** Every file of `bundle` is there, as the bundle has it. */
  predicate Holds(files: Files, bundle: Files) {
    forall f :: f in bundle ==> f in files && files[f] == bundle[f]
  }

  /** The report is true of the disk: the version named is the one installed, a skip or failure
      leaves every file alone, and a copy over a recognised addon leaves the bundle and nothing else. */
  lemma ReportsAreTrue(pathExists: bool, hasProjectFile: bool, addon: Option<Files>, bundle: Option<Files>, force: bool)
    ensures var (outcome, after) := Attempt(pathExists, hasProjectFile, addon, bundle, force);
            && (!outcome.Failed? ==> Current(after) == Some(outcome.installed))
            && (outcome.Failed? || outcome.SkippedNewer? || outcome.SkippedEqual? ==> after == addon)
            && (outcome.Updated? || outcome.Downgraded? ==>
                 after == bundle && Current(addon) == Some(outcome.previous))
            && (outcome.Installed? ==> bundle.Some? && after.Some? && Holds(after.value, bundle.value))
  {
    hide Compare;
  }

  /** Which report comes, from the versions alone: an older bundle is skipped, or installed as a
      downgrade with `force`; an equal one is skipped; a newer one updates; over no recognised version
      the bundle is installed. Each step that is missing fails, in this order. */
  lemma ReportIs(pathExists: bool, hasProjectFile: bool, addon: Option<Files>, bundle: Option<Files>, force: bool)
    ensures var outcome := Attempt(pathExists, hasProjectFile, addon, bundle, force).0;
            if !pathExists then outcome == Failed(NoSuchPath)
            else if !hasProjectFile then outcome == Failed(NotAProject)
            else if bundle == None then outcome == Failed(NoBundle)
            else if Current(bundle) == None then outcome == Failed(NoBundledVersion)
            else if Current(addon) == None then outcome == Installed(Current(bundle).value)
            else
              var (newer, older) := (Current(bundle).value, Current(addon).value);
              && (Compare(newer, older) > 0 ==> outcome == Updated(newer, older))
              && (Compare(newer, older) == 0 ==> outcome == SkippedEqual(older))
              && (Compare(newer, older) < 0 ==>
                    outcome == if force then Downgraded(newer, older) else SkippedNewer(older))
  {
    hide Compare;
  }

  /** What is on disk afterwards: as before after a failure or a skip; otherwise the bundle, over the
      files that were there if they were not recognised as the addon. */
  lemma DiskIs(pathExists: bool, hasProjectFile: bool, addon: Option<Files>, bundle: Option<Files>, force: bool,
               name: string)
    ensures var (outcome, after) := Attempt(pathExists, hasProjectFile, addon, bundle, force);
            if outcome.Failed? || outcome.SkippedNewer? || outcome.SkippedEqual? then after == addon
            else
              && bundle.Some? && after.Some?
              && (name in bundle.value ==> name in after.value && after.value[name] == bundle.value[name])
              && (name !in bundle.value ==>
                    (name in after.value <==> addon.Some? && "plugin.cfg" !in addon.value && name in addon.value)
                    && (name in after.value ==> after.value[name] == addon.value[name]))
  {
    hide Compare;
  }

  /** With `force` the bundle's version always ends up installed, up to equality; without it the
      installed version never goes down. */
  lemma OnlyForceGoesDown(addon: Option<Files>, bundle: Files, force: bool)
    requires PluginVersion(bundle).Some?
    ensures var now := Current(Attempt(true, true, addon, Some(bundle), force).1);
            && now.Some?
            && Compare(now.value, PluginVersion(bundle).value) >= 0
            && (force ==> Compare(now.value, PluginVersion(bundle).value) == 0)
            && (!force && Current(addon).Some? ==> Compare(now.value, Current(addon).value) >= 0)
  {
    hide CompareFrom;
    var newer := PluginVersion(bundle).value;
    EqualIff(newer, newer);
    if Current(addon).Some? {
      Antisymmetric(newer, Current(addon).value);
      EqualIff(Current(addon).value, Current(addon).value);
    }
  }

  /** Installing the same bundle again does nothing, even with `force`. */
  lemma SecondInstallIsSkipped(addon: Option<Files>, bundle: Files, force: bool, again: bool)
    requires PluginVersion(bundle).Some?
    requires !Attempt(true, true, addon, Some(bundle), force).0.SkippedNewer?
    ensures var after := Attempt(true, true, addon, Some(bundle), force).1;
            var (outcome, later) := Attempt(true, true, after, Some(bundle), again);
            outcome.SkippedEqual? && later == after
  {
    hide CompareFrom;
    var newer := PluginVersion(bundle).value;
    EqualIff(newer, newer);
  }

  // ---- runs of unforced installs ----

  /** The directory after trying each bundle in turn, never with `force`. */
  function AfterAll(addon: Option<Files>, bundles: seq<Option<Files>>): Option<Files> {
    if bundles == [] then addon else
    Attempt(true, true, AfterAll(addon, bundles[..|bundles| - 1]), bundles[|bundles| - 1], false).1
  }

  /** The versions a run gets to see: the one installed at the outset, then each bundle's. */
  function Seen(addon: Option<Files>, bundles: seq<Option<Files>>): seq<Version> {
    if bundles == [] then (if Current(addon).Some? then [Current(addon).value] else [])
    else
      var latest := Current(bundles[|bundles| - 1]);
      Seen(addon, bundles[..|bundles| - 1]) + if latest.Some? then [latest.value] else []
  }

  /** Any run of unforced installs, of any bundles over any addon, leaves installed a version that
      was seen and that none of the versions seen exceeds. */
  lemma {:induction false} RunsKeepTheMaximum(addon: Option<Files>, bundles: seq<Option<Files>>)
    ensures var now, seen := Current(AfterAll(addon, bundles)), Seen(addon, bundles);
            && (now == None <==> seen == [])
            && (now.Some? ==> now.value in seen)
            && (now.Some? ==> forall v :: v in seen ==> Compare(now.value, v) >= 0)
  {
    hide CompareFrom;
    if bundles == [] {
      if Current(addon).Some? { EqualIff(Current(addon).value, Current(addon).value); }
    } else {
      var front, bundle := bundles[..|bundles| - 1], bundles[|bundles| - 1];
      RunsKeepTheMaximum(addon, front);
      var before := Current(AfterAll(addon, front));
      if bundle.Some? && PluginVersion(bundle.value).Some? {
        var newer := PluginVersion(bundle.value).value;
        OnlyForceGoesDown(AfterAll(addon, front), bundle.value, false);
        var now := Current(AfterAll(addon, bundles)).value;
        forall v | v in Seen(addon, front) ensures Compare(now, v) >= 0 {
          NoOlder(now, before.value, v);
        }
      }
    }
  }

  lemma NoOlder(a: Version, b: Version, c: Version)
    requires Compare(a, b) >= 0 && Compare(b, c) >= 0
    ensures Compare(a, c) >= 0
  {
    hide Compare;
    Antisymmetric(a, b);
    Antisymmetric(b, c);
    Antisymmetric(a, c);
    Transitive(c, b, a);
  }
}

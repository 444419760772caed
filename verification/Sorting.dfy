/** Stable sorting, as the sort of the source's language defines it: by a total preorder, elements
    it does not tell apart keeping their order. */
module Sorting {
  import opened Sequences

  ghost predicate TotalPreorder<T(!new)>(le: (T, T) -> bool) {
    && (forall x, y :: le(x, y) || le(y, x))
    && (forall x, y, z :: le(x, y) && le(y, z) ==> le(x, z))
  }

  /** Index `a` comes before index `b`: its element is smaller, or they tie and it stands first. */
  predicate Before<T>(s: seq<T>, le: (T, T) -> bool, a: nat, b: nat)
    requires a < |s| && b < |s|
  {
    le(s[a], s[b]) && (le(s[b], s[a]) ==> a < b)
  }

  /** `p` lists the indices of `s` once each. */
  predicate Permutation(p: seq<nat>, n: nat) {
    |p| == n && (forall i :: 0 <= i < n ==> p[i] < n) && (forall i, j :: 0 <= i < j < n ==> p[i] != p[j])
  }

  function Pick<T>(s: seq<T>, p: seq<nat>): seq<T>
    requires forall i :: 0 <= i < |p| ==> p[i] < |s|
  {
    seq(|p|, i requires 0 <= i < |p| => s[p[i]])
  }

  ghost predicate Ordered<T>(s: seq<T>, le: (T, T) -> bool, p: seq<nat>)
    requires forall i :: 0 <= i < |p| ==> p[i] < |s|
  {
    forall i, j :: 0 <= i < j < |p| ==> Before(s, le, p[i], p[j])
  }

  /** `p` is the stable order of `s`. */
  ghost predicate StableOrder<T>(s: seq<T>, le: (T, T) -> bool, p: seq<nat>) {
    Permutation(p, |s|) && Ordered(s, le, p)
  }

  // ---- the sort ----

  /** How many of the leading elements of an ordered prefix stay in front of `x`. */
  function Place<T>(s: seq<T>, le: (T, T) -> bool, p: seq<nat>, x: T): (k: nat)
    requires forall i :: 0 <= i < |p| ==> p[i] < |s|
    ensures k <= |p|
    ensures k < |p| ==> !le(s[p[k]], x)
    ensures forall i :: 0 <= i < k ==> le(s[p[i]], x)
  {
    if p == [] || !le(s[p[0]], x) then 0 else 1 + Place(s, le, p[1..], x)
  }

  function Order<T>(s: seq<T>, le: (T, T) -> bool): (p: seq<nat>)
    ensures |p| == |s| && forall i :: 0 <= i < |p| ==> p[i] < |s|
  {
    if s == [] then [] else
    var n := |s| - 1;
    var p := Order(s[..n], le);
    var k := Place(s[..n], le, p, s[n]);
    p[..k] + [n] + p[k..]
  }

  function Sort<T>(s: seq<T>, le: (T, T) -> bool): (r: seq<T>)
    ensures |r| == |s|
  {
    Pick(s, Order(s, le))
  }

  lemma {:induction false} OrderIsStable<T(!new)>(s: seq<T>, le: (T, T) -> bool)
    requires TotalPreorder(le)
    ensures StableOrder(s, le, Order(s, le))
  {
    hide TotalPreorder;
    if s != [] {
      var n := |s| - 1;
      OrderIsStable(s[..n], le);
      var k := OrderOneMore(s, le);
      hide Order, StableOrder;
      InsertedStable(s, le, Order(s[..n], le), k);
    }
  }

  lemma OrderOneMore<T(!new)>(s: seq<T>, le: (T, T) -> bool) returns (k: nat)
    requires s != []
    ensures var n, p := |s| - 1, Order(s[..|s| - 1], le);
            && k <= |p| && Order(s, le) == p[..k] + [n] + p[k..]
            && (k < |p| ==> !le(s[p[k]], s[n]))
            && forall i :: 0 <= i < k ==> le(s[p[i]], s[n])
  {
    var n := |s| - 1;
    k := Place(s[..n], le, Order(s[..n], le), s[n]);
  }

  lemma InsertedStable<T(!new)>(s: seq<T>, le: (T, T) -> bool, p: seq<nat>, k: nat)
    requires TotalPreorder(le) && s != [] && k <= |p| && StableOrder(s[..|s| - 1], le, p)
    requires k < |p| ==> !le(s[p[k]], s[|s| - 1])
    requires forall i :: 0 <= i < k ==> le(s[p[i]], s[|s| - 1])
    ensures StableOrder(s, le, p[..k] + [|s| - 1] + p[k..])
  {
    hide TotalPreorder, Before;
    var q := p[..k] + [|s| - 1] + p[k..];
    forall i, j | 0 <= i < j < |q| ensures q[i] != q[j] && Before(s, le, q[i], q[j]) {
      InsertedBefore(s, le, p, k, i, j);
    }
  }

  /** Inserting the last index at `k` keeps every pair of positions in order. */
  lemma InsertedBefore<T(!new)>(s: seq<T>, le: (T, T) -> bool, p: seq<nat>, k: nat, i: nat, j: nat)
    requires TotalPreorder(le) && s != [] && k <= |p| && i < j <= |p|
    requires Permutation(p, |s| - 1) && Ordered(s[..|s| - 1], le, p)
    requires k < |p| ==> !le(s[p[k]], s[|s| - 1])
    requires forall i :: 0 <= i < k ==> le(s[p[i]], s[|s| - 1])
    ensures var q := p[..k] + [|s| - 1] + p[k..]; q[i] != q[j] && Before(s, le, q[i], q[j])
  {
    hide Ordered, TotalPreorder, Before;
    var (front, n) := (s[..|s| - 1], |s| - 1);
    if i != k && j != k {
      var (i0, j0) := (if i < k then i else i - 1, if j < k then j else j - 1);
      InOrder(front, le, p, i0, j0);
      SameBefore(s, le, p[i0], p[j0]);
    } else if j == k {
      LastAfter(s, le, p[i]);
    } else {
      if k < j - 1 { InOrder(front, le, p, k, j - 1); }
      LastBefore(s, le, p[k], p[j - 1]);
    }
  }

  lemma SameBefore<T>(s: seq<T>, le: (T, T) -> bool, a: nat, b: nat)
    requires s != [] && a < |s| - 1 && b < |s| - 1 && Before(s[..|s| - 1], le, a, b)
    ensures Before(s, le, a, b)
  {}

  lemma LastAfter<T>(s: seq<T>, le: (T, T) -> bool, a: nat)
    requires s != [] && a < |s| - 1 && le(s[a], s[|s| - 1])
    ensures Before(s, le, a, |s| - 1)
  {}

  /** An element larger than the last, and all that follow it in order, come after the last. */
  lemma LastBefore<T(!new)>(s: seq<T>, le: (T, T) -> bool, a: nat, b: nat)
    requires TotalPreorder(le) && s != [] && a < |s| - 1 && b < |s| - 1 && !le(s[a], s[|s| - 1])
    requires a == b || Before(s[..|s| - 1], le, a, b)
    ensures Before(s, le, |s| - 1, b)
  {}

  lemma InOrder<T>(s: seq<T>, le: (T, T) -> bool, p: seq<nat>, i: nat, j: nat)
    requires (forall i :: 0 <= i < |p| ==> p[i] < |s|) && Ordered(s, le, p) && i < j < |p|
    ensures Before(s, le, p[i], p[j])
  {}

  // ---- there is only one ----

  lemma SameIndices(p: seq<nat>, q: seq<nat>, n: nat)
    requires Permutation(p, n) && Permutation(q, n)
    ensures forall x :: x in p <==> x in q
  {
    Covers(p, n);
    Covers(q, n);
  }

  /** A permutation's entries are all the indices. */
  lemma Covers(p: seq<nat>, n: nat)
    requires Permutation(p, n)
    ensures forall x: nat :: x in p <==> x < n
  {
    var got := set i | 0 <= i < n :: p[i];
    UpToIs(n);
    CardEntries(p, n);
    assert got <= UpTo(n);
    SubsetCard(got, UpTo(n));
    forall x: nat | x < n ensures x in p { assert x in got; }
  }

  function UpTo(n: nat): set<nat> {
    if n == 0 then {} else UpTo(n - 1) + {n - 1}
  }

  lemma {:induction false} UpToIs(n: nat)
    ensures |UpTo(n)| == n && forall x: nat :: x in UpTo(n) <==> x < n
  {
    if n > 0 { UpToIs(n - 1); }
  }

  lemma {:induction false} CardEntries(p: seq<nat>, n: nat)
    requires n <= |p| && forall i, j :: 0 <= i < j < |p| ==> p[i] != p[j]
    ensures |set i | 0 <= i < n :: p[i]| == n
  {
    if n > 0 {
      CardEntries(p, n - 1);
      assert (set i | 0 <= i < n :: p[i]) == (set i | 0 <= i < n - 1 :: p[i]) + {p[n - 1]};
    }
  }

  lemma SubsetCard(a: set<nat>, b: set<nat>)
    requires a <= b && |a| == |b|
    ensures a == b
  {
    assert |b - a| == |b| - |a|;
  }

  /** Two lists of the same distinct indices, both in stable order, are the same list. */
  lemma {:induction false} OrderedUnique<T(!new)>(s: seq<T>, le: (T, T) -> bool, p: seq<nat>, q: seq<nat>)
    requires TotalPreorder(le)
    requires (forall i :: 0 <= i < |p| ==> p[i] < |s|) && (forall i :: 0 <= i < |q| ==> q[i] < |s|)
    requires Ordered(s, le, p) && Ordered(s, le, q) && (forall x :: x in p <==> x in q)
    ensures p == q
  {
    assert q != [] ==> q[0] in q;
    if p != [] {
      assert p[0] in p;
      HeadFirst(s, le, p, q[0]);
      HeadFirst(s, le, q, p[0]);
      forall x ensures x in p[1..] <==> x in q[1..] {
        RestIn(s, le, p, x);
        RestIn(s, le, q, x);
      }
      OrderedUnique(s, le, p[1..], q[1..]);
    }
  }

  lemma HeadFirst<T(!new)>(s: seq<T>, le: (T, T) -> bool, p: seq<nat>, x: nat)
    requires (forall i :: 0 <= i < |p| ==> p[i] < |s|) && Ordered(s, le, p) && x in p
    ensures x == p[0] || Before(s, le, p[0], x)
  {
    var i :| 0 <= i < |p| && p[i] == x;
  }

  lemma RestIn<T(!new)>(s: seq<T>, le: (T, T) -> bool, p: seq<nat>, x: nat)
    requires p != [] && (forall i :: 0 <= i < |p| ==> p[i] < |s|) && Ordered(s, le, p)
    ensures x in p[1..] <==> x in p && x != p[0]
  {
    if x in p[1..] {
      var i :| 0 <= i < |p| - 1 && p[1..][i] == x;
      assert Before(s, le, p[0], p[i + 1]);
    }
  }

  /** The stable order of a sequence is unique, and `Sort` applies it. */
  lemma StableOrderIsUnique<T(!new)>(s: seq<T>, le: (T, T) -> bool, p: seq<nat>)
    requires TotalPreorder(le) && StableOrder(s, le, p)
    ensures p == Order(s, le) && Pick(s, p) == Sort(s, le)
  {
    OrderIsStable(s, le);
    SameIndices(p, Order(s, le), |s|);
    OrderedUnique(s, le, p, Order(s, le));
  }

  // ---- contents ----

  lemma SortOneMore<T(!new)>(s: seq<T>, le: (T, T) -> bool) returns (k: nat)
    requires s != []
    ensures k <= |s| - 1
    ensures var r := Sort(s[..|s| - 1], le); Sort(s, le) == r[..k] + [s[|s| - 1]] + r[k..]
    ensures var r := Sort(s[..|s| - 1], le); k < |r| ==> !le(r[k], s[|s| - 1])
    ensures var r := Sort(s[..|s| - 1], le); forall i :: 0 <= i < k ==> le(r[i], s[|s| - 1])
  {
    k := OrderOneMore(s, le);
    hide Order;
    InsertedPick(s, Order(s[..|s| - 1], le), k);
  }

  lemma InsertedPick<T(!new)>(s: seq<T>, p: seq<nat>, k: nat)
    requires s != [] && k <= |p| && forall i :: 0 <= i < |p| ==> p[i] < |s| - 1
    ensures var q, r := p[..k] + [|s| - 1] + p[k..], Pick(s[..|s| - 1], p);
            Pick(s, q) == r[..k] + [s[|s| - 1]] + r[k..]
  {
  }

  lemma {:induction false} SortKeepsMultiset<T(!new)>(s: seq<T>, le: (T, T) -> bool)
    ensures multiset(Sort(s, le)) == multiset(s)
  {
    hide Sort;
    if s != [] {
      var n := |s| - 1;
      SortKeepsMultiset(s[..n], le);
      var k := SortOneMore(s, le);
      var r := Sort(s[..n], le);
      assert s == s[..n] + [s[n]];
      assert r == r[..k] + r[k..];
    }
  }

  lemma SortIsSorted<T(!new)>(s: seq<T>, le: (T, T) -> bool)
    requires TotalPreorder(le)
    ensures forall i, j :: 0 <= i < j < |s| ==> le(Sort(s, le)[i], Sort(s, le)[j])
  {
    OrderIsStable(s, le);
    var p := Order(s, le);
    forall i, j | 0 <= i < j < |s| ensures le(Sort(s, le)[i], Sort(s, le)[j]) {
      assert Before(s, le, p[i], p[j]);
    }
  }

  // ---- parts ----

  /** `le` holds between all pairs of `s`, left to right. */
  ghost predicate InLine<T>(s: seq<T>, le: (T, T) -> bool) {
    forall i, j :: 0 <= i < j < |s| ==> le(s[i], s[j])
  }

  /** The sort leaves a sequence as it is exactly when it is in order already. */
  lemma SortedIffInLine<T(!new)>(s: seq<T>, le: (T, T) -> bool)
    requires TotalPreorder(le)
    ensures Sort(s, le) == s <==> InLine(s, le)
  {
    SortIsSorted(s, le);
    if InLine(s, le) {
      var p: seq<nat> := seq(|s|, i requires 0 <= i < |s| => i);
      assert StableOrder(s, le, p);
      StableOrderIsUnique(s, le, p);
      assert Pick(s, p) == s;
    }
  }

  /** A part of a sorted sequence is that part of the input, sorted. */
  lemma {:induction false} SortCommutesWithFilter<T(!new)>(s: seq<T>, le: (T, T) -> bool, keep: T -> bool)
    requires TotalPreorder(le)
    ensures Filter(Sort(s, le), keep) == Sort(Filter(s, keep), le)
  {
    hide Sort, TotalPreorder, Filter;
    if s != [] {
      var n := |s| - 1;
      var front, x, r := s[..n], s[n], Sort(s[..n], le);
      SortCommutesWithFilter(front, le, keep);
      var k := SortOneMore(s, le);
      FilterLast(s, keep);
      assert r == r[..k] + r[k..];
      FilterParts(r[..k], x, r[k..], keep);
      if keep(x) {
        var part := Filter(front, keep);
        assert (part + [x])[..|part|] == part;
        var j := SortOneMore(part + [x], le);
        forall y | y in Filter(r[k..], keep) ensures !le(y, x) { TailIsLarger(s, le, k, y); }
        SamePlace(Sort(part, le), Filter(r[..k], keep), Filter(r[k..], keep), x, le, j);
        assert Sort(part + [x], le) == Filter(r[..k], keep) + [x] + Filter(r[k..], keep);
      } else {
        assert Filter(s, keep) == Filter(front, keep);
      }
    } else {
      NothingSorted(s, le, keep);
    }
  }

  /** Any part of the input that is in order already comes out as it was. */
  lemma SortKeepsOrderedPart<T(!new)>(s: seq<T>, le: (T, T) -> bool, keep: T -> bool)
    requires TotalPreorder(le) && InLine(Filter(s, keep), le)
    ensures Filter(Sort(s, le), keep) == Filter(s, keep)
  {
    hide Sort, InLine, TotalPreorder, Filter;
    SortCommutesWithFilter(s, le, keep);
    SortedIffInLine(Filter(s, keep), le);
  }

  lemma NothingSorted<T(!new)>(s: seq<T>, le: (T, T) -> bool, keep: T -> bool)
    requires s == []
    ensures Filter(Sort(s, le), keep) == [] == Sort(Filter(s, keep), le)
  {}

  /** There is only one place where the elements up to `x` end and the others begin. */
  lemma SamePlace<T(!new)>(r: seq<T>, a: seq<T>, b: seq<T>, x: T, le: (T, T) -> bool, j: nat)
    requires r == a + b && j <= |r|
    requires (forall y :: y in a ==> le(y, x)) && (forall y :: y in b ==> !le(y, x))
    requires (forall i :: 0 <= i < j ==> le(r[i], x)) && (j < |r| ==> !le(r[j], x))
    ensures r[..j] == a && r[j..] == b
  {
    forall i | 0 <= i < |a| ensures r[i] == a[i] && a[i] in a {}
    forall i | 0 <= i < |b| ensures r[|a| + i] == b[i] && b[i] in b {}
    assert b != [] ==> r[|a|] == b[0];
  }

  lemma FilterParts<T(!new)>(a: seq<T>, x: T, b: seq<T>, keep: T -> bool)
    ensures Filter(a + b, keep) == Filter(a, keep) + Filter(b, keep)
    ensures Filter(a + [x] + b, keep) == Filter(a, keep) + (if keep(x) then [x] else []) + Filter(b, keep)
  {
    FilterConcat(a, b, keep);
    FilterConcat(a + [x], b, keep);
    FilterLast(a + [x], keep);
    assert (a + [x])[..|a|] == a;
  }

  lemma TailIsLarger<T(!new)>(s: seq<T>, le: (T, T) -> bool, k: nat, y: T)
    requires TotalPreorder(le) && s != [] && k <= |s| - 1
    requires var r := Sort(s[..|s| - 1], le); k < |r| ==> !le(r[k], s[|s| - 1])
    requires y in Sort(s[..|s| - 1], le)[k..]
    ensures !le(y, s[|s| - 1])
  {
    hide Sort;
    var front := s[..|s| - 1];
    SortIsSorted(front, le);
    var j :| 0 <= j < |front| - k && Sort(front, le)[k..][j] == y;
    assert Sort(front, le)[k + j] == y;
    if j > 0 { assert le(Sort(front, le)[k], y); }
  }
}

/** `Math.round`, `Math.ceil` and averages, over the reals, as the summaries use them. */
module Arithmetic {

  /** `Math.ceil`. */
  function Ceil(x: real): (n: int)
    ensures n as real - 1.0 < x <= n as real
  {
    -((-x).Floor)
  }

  /** `Math.round`: the nearest integer, halves upward. */
  function Round(x: real): int {
    (x + 0.5).Floor
  }

  function RoundCents(x: real): real {
    Round(x * 100.0) as real / 100.0
  }

  lemma FloorIsMonotone(x: real, y: real)
    requires x <= y
    ensures x.Floor <= y.Floor
  {}

  lemma RoundCentsIsClose(x: real)
    ensures -0.005 < RoundCents(x) - x <= 0.005
  {
    var n := Round(x * 100.0);
    assert n as real <= x * 100.0 + 0.5 < n as real + 1.0;
  }

  /** The last whole hundredth not above a number. */
  function FloorCents(x: real): real {
    (x * 100.0).Floor as real / 100.0
  }

  /** The first whole hundredth not below a number. */
  function CeilCents(x: real): real {
    Ceil(x * 100.0) as real / 100.0
  }

  lemma RoundCentsAtMostIff(x: real, y: real)
    ensures RoundCents(x) <= y <==> x < FloorCents(y) + 0.005
  {
    var n, f := Round(x * 100.0), (y * 100.0).Floor;
    assert n as real <= x * 100.0 + 0.5 < n as real + 1.0;
    assert f as real <= y * 100.0 < f as real + 1.0;
    assert RoundCents(x) <= y <==> n <= f;
  }

  lemma RoundCentsAtLeastIff(x: real, y: real)
    ensures y <= RoundCents(x) <==> CeilCents(y) - 0.005 <= x
  {
    var n, c := Round(x * 100.0), Ceil(y * 100.0);
    assert n as real <= x * 100.0 + 0.5 < n as real + 1.0;
    assert c as real - 1.0 < y * 100.0 <= c as real;
    assert y <= RoundCents(x) <==> c <= n;
  }

  function Sum(values: seq<real>): real {
    if values == [] then 0.0 else Sum(values[..|values| - 1]) + values[|values| - 1]
  }

  lemma {:induction false} SumConcat(a: seq<real>, b: seq<real>)
    ensures Sum(a + b) == Sum(a) + Sum(b)
  {
    if b == [] {
      assert a + b == a;
    } else {
      assert (a + b)[..|a + b| - 1] == a + b[..|b| - 1];
      SumConcat(a, b[..|b| - 1]);
    }
  }

  lemma SumOfOne(x: real)
    ensures Sum([x]) == x && Sum([]) == 0.0
  {
    assert [x][..0] == [];
  }

  lemma RoundCentsKeepsSign(x: real)
    ensures x >= 0.0 ==> RoundCents(x) >= 0.0
    ensures x <= 0.0 ==> RoundCents(x) <= 0.0
  {}

  lemma {:induction false} SumBounds(values: seq<real>, low: real, high: real)
    requires forall i :: 0 <= i < |values| ==> low <= values[i] <= high
    ensures |values| as real * low <= Sum(values) <= |values| as real * high
  {
    if values != [] { SumBounds(values[..|values| - 1], low, high); }
  }

  lemma MeanWithin(values: seq<real>, low: real, high: real)
    requires values != [] && forall i :: 0 <= i < |values| ==> low <= values[i] <= high
    ensures low <= Sum(values) / |values| as real <= high
  {
    hide Sum;
    SumBounds(values, low, high);
    var mean := Sum(values) / |values| as real;
    assert Sum(values) == mean * |values| as real;
  }
}

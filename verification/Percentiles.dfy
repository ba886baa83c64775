/** Linear-interpolated percentiles over reals. */
module Percentiles {
  import opened Reals
  import opened Sequences

  function Smaller(): (r: (real, real) -> bool) { (x: real, y: real) => x < y }

  function SortReals(xs: seq<real>): (r: seq<real>)
    ensures |r| == |xs|
  {
    SortBy(Smaller(), xs)
  }

  ghost predicate Ascending(xs: seq<real>) {
    forall i, j :: 0 <= i < j < |xs| ==> xs[i] <= xs[j]
  }

  lemma {:induction false} SmallerIsOrder()
    ensures IsOrder(Smaller())
  {
  }

  lemma {:induction false} SortAscending(xs: seq<real>)
    ensures Ascending(SortReals(xs)) && multiset(SortReals(xs)) == multiset(xs)
  {
    SmallerIsOrder();
    SortByOrdered(Smaller(), xs);
    SortByMultiset(Smaller(), xs);
    forall i, j | 0 <= i < j < |xs| ensures SortReals(xs)[i] <= SortReals(xs)[j] {
      assert !Smaller()(SortReals(xs)[j], SortReals(xs)[i]);
    }
  }

  // ---------------------------------------------------------------- interpolation

  /** The value at a fractional position of an ascending list. */
  function At(xs: seq<real>, position: real): (r: real)
    requires 0.0 <= position && position <= (|xs| - 1) as real
  {
    var lower := position.Floor;
    if lower as real == position then xs[lower]
    else
      var weight := position - lower as real;
      xs[lower] * (1.0 - weight) + xs[lower + 1] * weight
  }

  function Position(n: nat, probability: real): (r: real)
    requires n > 0 && 0.0 <= probability <= 1.0
    ensures 0.0 <= r <= (n - 1) as real
  {
    Product((n - 1) as real, probability);
    Scale(probability, 1.0, (n - 1) as real);
    (n - 1) as real * probability
  }

  function Percentile(values: seq<real>, probability: real): (r: real)
    requires values != [] && 0.0 <= probability <= 1.0
  {
    At(SortReals(values), Position(|values|, probability))
  }

  lemma {:induction false} Between(a: real, b: real, weight: real)
    requires a <= b && 0.0 <= weight <= 1.0
    ensures a <= a * (1.0 - weight) + b * weight <= b
  {
  }

  lemma {:induction false} FurtherAlong(a: real, b: real, v: real, w: real)
    requires a <= b && v <= w
    ensures a * (1.0 - v) + b * v <= a * (1.0 - w) + b * w
  {
  }

  /** The value lies between its neighbours. */
  lemma {:induction false} AtNeighbours(xs: seq<real>, position: real)
    requires Ascending(xs) && 0.0 <= position && position <= (|xs| - 1) as real
    ensures var k := position.Floor;
            && xs[k] <= At(xs, position)
            && (k + 1 < |xs| ==> At(xs, position) <= xs[k + 1])
            && (k + 1 == |xs| ==> At(xs, position) == xs[k])
  {
    var k := position.Floor;
    if k + 1 < |xs| {
      Between(xs[k], xs[k + 1], position - k as real);
    }
  }

  lemma {:induction false} AtMonotone(xs: seq<real>, s: real, t: real)
    requires Ascending(xs) && 0.0 <= s <= t && t <= (|xs| - 1) as real
    ensures At(xs, s) <= At(xs, t)
  {
    var j, k := s.Floor, t.Floor;
    AtNeighbours(xs, s);
    AtNeighbours(xs, t);
    if j < k {
      assert xs[j + 1] <= xs[k];
    } else if k + 1 < |xs| {
      FurtherAlong(xs[k], xs[k + 1], s - k as real, t - k as real);
      Whole(xs[k], xs[k + 1]);
    }
  }

  lemma Whole(a: real, b: real)
    ensures a * (1.0 - 0.0) + b * 0.0 == a
  {
  }

  /** A percentile is no smaller than the minimum and no larger than the maximum. */
  lemma {:induction false} PercentileInRange(values: seq<real>, probability: real) returns (low: real, high: real)
    requires values != [] && 0.0 <= probability <= 1.0
    ensures low in values && high in values && low <= Percentile(values, probability) <= high
  {
    var xs, position := SortReals(values), Position(|values|, probability);
    SortAscending(values);
    AtNeighbours(xs, position);
    var k := position.Floor;
    low, high := xs[k], xs[if k + 1 < |xs| then k + 1 else k];
    assert low in multiset(values) && high in multiset(values);
  }

  lemma {:induction false} PositionMonotone(n: nat, p: real, q: real)
    requires n > 0 && 0.0 <= p <= q <= 1.0
    ensures Position(n, p) <= Position(n, q)
  {
    ProductOrder((n - 1) as real, p, q, Position(n, p), Position(n, q));
  }

  lemma {:induction false} ProductOrder(m: real, p: real, q: real, a: real, b: real)
    requires m >= 0.0 && p <= q && a == m * p && b == m * q
    ensures a <= b
  {
  }

  /** Larger probabilities give larger percentiles, so interval ends are ordered. */
  lemma {:induction false} PercentileMonotone(values: seq<real>, p: real, q: real)
    requires values != [] && 0.0 <= p <= q <= 1.0
    ensures Percentile(values, p) <= Percentile(values, q)
  {
    SortAscending(values);
    PositionMonotone(|values|, p, q);
    AtMonotone(SortReals(values), Position(|values|, p), Position(|values|, q));
  }

  /** A percentile depends on the values, not on the order they were collected in. */
  lemma {:induction false} PercentileForgetsListing(a: seq<real>, b: seq<real>, probability: real)
    requires a != [] && b != [] && multiset(a) == multiset(b) && 0.0 <= probability <= 1.0
    ensures Percentile(a, probability) == Percentile(b, probability)
  {
    SmallerIsOrder();
    SortByForgetsListing(Smaller(), a, b);
  }
}

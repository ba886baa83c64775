/** Completion fairness of benchmarks/broker_load.py: the min/max ratio and Jain's index. */
module Fairness {
  import opened Reals

  function Total(xs: seq<nat>): (r: nat) {
    if xs == [] then 0 else xs[0] + Total(xs[1..])
  }

  function Squares(xs: seq<nat>): (r: nat) {
    if xs == [] then 0 else xs[0] * xs[0] + Squares(xs[1..])
  }

  function Least(xs: seq<nat>): (r: nat)
    requires xs != []
    ensures r in xs
  {
    if |xs| == 1 then xs[0] else
      var rest := Least(xs[1..]);
      if xs[0] < rest then xs[0] else rest
  }

  function Greatest(xs: seq<nat>): (r: nat)
    requires xs != []
    ensures r in xs
  {
    if |xs| == 1 then xs[0] else
      var rest := Greatest(xs[1..]);
      if xs[0] > rest then xs[0] else rest
  }

  function Ratio(xs: seq<nat>): (r: real)
    requires xs != []
  {
    if Greatest(xs) == 0 then 0.0 else Least(xs) as real / Greatest(xs) as real
  }

  /** The denominator is positive as soon as anything completed. */
  lemma {:induction false} SquaresPositive(xs: seq<nat>)
    requires xs != [] && Greatest(xs) > 0
    ensures Squares(xs) > 0
  {
    if |xs| > 1 && Greatest(xs[1..]) > 0 {
      SquaresPositive(xs[1..]);
      SquareNatural(xs[0]);
    } else {
      PositiveSquare(xs[0]);
    }
  }

  lemma PositiveSquare(x: nat)
    requires x > 0
    ensures x * x > 0
  {
  }

  lemma SquareNatural(x: int)
    ensures x * x >= 0
  {
  }

  function Jain(xs: seq<nat>): (r: real)
    requires xs != []
  {
    if Greatest(xs) == 0 then 0.0 else
      SquaresPositive(xs);
      assert |xs| * Squares(xs) > 0;
      (Total(xs) * Total(xs)) as real / (|xs| * Squares(xs)) as real
  }

  // ---------------------------------------------------------------- bounds on the members

  lemma {:induction false} Bounds(xs: seq<nat>, x: nat)
    requires x in xs
    ensures Least(xs) <= x <= Greatest(xs)
  {
    if |xs| > 1 && x in xs[1..] {
      Bounds(xs[1..], x);
    }
  }

  predicate AllEqual(xs: seq<nat>) {
    |xs| <= 1 || (xs[0] == xs[1] && AllEqual(xs[1..]))
  }

  // ---------------------------------------------------------------- the Cauchy-Schwarz side

  /** The sum of squared differences to one value. */
  function Deviation(x: int, xs: seq<nat>): (r: int) {
    if xs == [] then 0 else (x - xs[0]) * (x - xs[0]) + Deviation(x, xs[1..])
  }

  /** The sum of squared differences over all pairs. */
  function PairDeviation(xs: seq<nat>): (r: int) {
    if xs == [] then 0 else Deviation(xs[0], xs[1..]) + PairDeviation(xs[1..])
  }

  lemma {:induction false} DeviationIs(x: int, xs: seq<nat>)
    ensures Deviation(x, xs) == |xs| * (x * x) - 2 * x * Total(xs) + Squares(xs)
  {
    if xs != [] {
      DeviationIs(x, xs[1..]);
      DeviationStep(|xs| - 1, x, xs[0], Total(xs[1..]));
    }
  }

  lemma DeviationStep(n: int, x: int, y: int, t: int)
    ensures (x - y) * (x - y) + n * (x * x) - 2 * x * t == (n + 1) * (x * x) - 2 * x * (y + t) + y * y
  {
  }

  /** Lagrange's identity: n times the squares less the squared total is the pair deviation. */
  lemma {:induction false} Lagrange(xs: seq<nat>)
    ensures |xs| * Squares(xs) - Total(xs) * Total(xs) == PairDeviation(xs)
  {
    if xs != [] {
      Lagrange(xs[1..]);
      DeviationIs(xs[0], xs[1..]);
      Expand(|xs| - 1, xs[0], Total(xs[1..]), Squares(xs[1..]));
    }
  }

  lemma Expand(n: int, y: int, t: int, q: int)
    ensures (n + 1) * (y * y + q) - (y + t) * (y + t) == (n * q - t * t) + (n * (y * y) - 2 * y * t + q)
  {
  }

  lemma {:induction false} DeviationNatural(x: int, xs: seq<nat>)
    ensures Deviation(x, xs) >= 0
  {
    if xs != [] {
      DeviationNatural(x, xs[1..]);
      SquareNatural(x - xs[0]);
    }
  }

  lemma {:induction false} PairDeviationNatural(xs: seq<nat>)
    ensures PairDeviation(xs) >= 0
  {
    if xs != [] {
      PairDeviationNatural(xs[1..]);
      DeviationNatural(xs[0], xs[1..]);
    }
  }

  /** No pair deviates exactly when all counts agree. */
  lemma {:induction false} NoDeviationIffEqual(xs: seq<nat>)
    ensures PairDeviation(xs) == 0 <==> AllEqual(xs)
  {
    if xs != [] {
      NoDeviationIffEqual(xs[1..]);
      PairDeviationNatural(xs[1..]);
      DeviationNatural(xs[0], xs[1..]);
      if |xs| > 1 {
        DeviationNatural(xs[0], xs[2..]);
        assert xs[1..][1..] == xs[2..];
        NoDifference(xs[0], xs[1]);
        if AllEqual(xs) {
          EqualDeviation(xs[0], xs[1..]);
        }
      }
    }
  }

  lemma NoDifference(x: int, y: int)
    ensures (x - y) * (x - y) == 0 <==> x == y
    ensures (x - y) * (x - y) >= 0
  {
  }

  lemma {:induction false} EqualDeviation(x: nat, xs: seq<nat>)
    requires xs != [] && xs[0] == x && AllEqual(xs)
    ensures Deviation(x, xs) == 0
  {
    if |xs| > 1 {
      EqualDeviation(x, xs[1..]);
    }
  }

  /** The squared total is at least the squares: nothing was completed a negative number of times. */
  lemma {:induction false} SquaresWithinTotal(xs: seq<nat>)
    ensures Squares(xs) <= Total(xs) * Total(xs)
  {
    if xs != [] {
      SquaresWithinTotal(xs[1..]);
      var y, t := xs[0], Total(xs[1..]);
      assert (y + t) * (y + t) == y * y + 2 * (y * t) + t * t;
    }
  }

  // ---------------------------------------------------------------- Jain's index

  lemma {:induction false} QuotientOne(a: real, b: real)
    requires b > 0.0
    ensures (a / b == 1.0 <==> a == b) && (a <= b ==> a / b <= 1.0)
  {
  }

  /** Between one over the number of agents and one; one exactly when all completed equally often. */
  lemma {:induction false} JainBounds(xs: seq<nat>)
    requires xs != [] && Greatest(xs) > 0
    ensures 1.0 / |xs| as real <= Jain(xs) <= 1.0
    ensures Jain(xs) == 1.0 <==> AllEqual(xs)
  {
    var n, q, t := |xs|, Squares(xs), Total(xs);
    SquaresPositive(xs);
    Lagrange(xs);
    PairDeviationNatural(xs);
    NoDeviationIffEqual(xs);
    SquaresWithinTotal(xs);
    assert n * q > 0;
    QuotientOne((t * t) as real, (n * q) as real);
    LowerShare(n, q, t * t);
  }

  lemma {:induction false} LowerShare(n: nat, q: nat, tt: nat)
    requires n > 0 && q > 0 && q <= tt && n * q > 0
    ensures 1.0 / n as real <= tt as real / (n * q) as real
  {
  }

  // ---------------------------------------------------------------- the ratio bounds the index

  predicate Within(xs: seq<nat>, m: int, top: int) {
    xs == [] || (m <= xs[0] <= top && Within(xs[1..], m, top))
  }

  lemma {:induction false} WithinExtremes(all: seq<nat>, xs: seq<nat>)
    requires all != [] && forall x :: x in xs ==> x in all
    ensures Within(xs, Least(all), Greatest(all))
  {
    if xs != [] {
      assert xs[0] in xs;
      Bounds(all, xs[0]);
      WithinExtremes(all, xs[1..]);
    }
  }

  /** Each count lies between the extremes, so the squares stay under a line through them. */
  lemma {:induction false} SquaresUnderChord(xs: seq<nat>, m: int, top: int)
    requires Within(xs, m, top)
    ensures Squares(xs) <= (m + top) * Total(xs) - |xs| * (m * top)
  {
    if xs != [] {
      SquaresUnderChord(xs[1..], m, top);
      ChordStep(xs[0], m, top, Total(xs[1..]), Squares(xs[1..]), |xs| - 1);
    }
  }

  lemma {:induction false} ChordStep(x: int, m: int, top: int, t: int, q: int, n: int)
    requires m <= x <= top && q <= (m + top) * t - n * (m * top)
    ensures x * x + q <= (m + top) * (x + t) - (n + 1) * (m * top)
  {
  }

  /** (m + M)^2 S^2 >= 4 m M n Q: with r = m/M this is jain >= 4r / (1 + r)^2. */
  lemma {:induction false} ChordBound(m: int, top: int, t: int, n: int, q: int)
    requires 0 <= m && 0 <= top && 0 <= n && q <= (m + top) * t - n * (m * top)
    ensures ((m + top) * t) * ((m + top) * t) >= 4 * (m * top) * (n * q)
  {
    var s, a := (m + top) * t, m * top;
    NaturalProduct(m, top);
    NaturalProduct(n, a);
    var k := n * a;
    ScaleInt(k, q, s - k);
    HalfSquare(s, k);
    Regroup(a, n, q, k);
  }

  lemma {:induction false} NaturalProduct(a: int, b: int)
    requires a >= 0 && b >= 0
    ensures a * b >= 0
  {
  }

  lemma {:induction false} ScaleInt(k: int, q: int, x: int)
    requires k >= 0 && q <= x
    ensures k * q <= k * x
  {
  }

  lemma {:induction false} HalfSquare(s: int, k: int)
    ensures s * s >= 4 * (k * (s - k))
  {
    var d := s - 2 * k;
    assert d * d >= 0;
    assert d * d == s * s - 4 * (k * (s - k));
  }

  lemma {:induction false} Regroup(a: int, n: int, q: int, k: int)
    requires k == n * a
    ensures 4 * a * (n * q) == 4 * (k * q)
  {
  }

  lemma {:induction false} Share(m: real, top: real)
    requires 0.0 <= m <= top && top > 0.0
    ensures 0.0 <= m / top <= 1.0 && (m / top) * top == m
  {
  }

  /** The reported ratio r bounds the index from below: jain >= 4r / (1 + r)^2. */
  lemma {:induction false} JainAtLeast(xs: seq<nat>)
    requires xs != [] && Greatest(xs) > 0
    ensures 0.0 <= Ratio(xs) <= 1.0
    ensures Jain(xs) * ((1.0 + Ratio(xs)) * (1.0 + Ratio(xs))) >= 4.0 * Ratio(xs)
  {
    Bounds(xs, Least(xs));
    WithinExtremes(xs, xs);
    SquaresUnderChord(xs, Least(xs), Greatest(xs));
    SquaresPositive(xs);
    PositiveInts(|xs|, Squares(xs));
    Share(Least(xs) as real, Greatest(xs) as real);
    IndexBound(Least(xs), Greatest(xs), Total(xs), |xs|, Squares(xs));
  }

  lemma PositiveInts(a: int, b: int)
    requires a > 0 && b > 0
    ensures a * b > 0
  {
  }

  lemma {:induction false} IndexBound(m: int, top: int, t: int, n: int, q: int)
    requires 0 <= m <= top && 0 < top && 0 < n && 0 < q && n * q > 0 && q <= (m + top) * t - n * (m * top)
    ensures var r, j := m as real / top as real, (t * t) as real / (n * q) as real;
            j * ((1.0 + r) * (1.0 + r)) >= 4.0 * r
  {
    ChordBound(m, top, t, n, q);
    RealForm(m, top, n * q, t);
    RescaleQuotients(m as real, top as real, (n * q) as real, (t * t) as real);
  }

  lemma {:induction false} RescaleQuotients(m: real, top: real, d: real, tt: real)
    requires 0.0 <= m <= top && top > 0.0 && d > 0.0 && tt * ((top + m) * (top + m)) >= 4.0 * (m * top) * d
    ensures (tt / d) * ((1.0 + m / top) * (1.0 + m / top)) >= 4.0 * (m / top)
  {
    Share(m, top);
    Quotient(tt, d);
    Rescale(tt / d, m / top, m, top, d, tt);
  }

  lemma {:induction false} RealForm(m: int, top: int, nq: int, t: int)
    requires ((m + top) * t) * ((m + top) * t) >= 4 * (m * top) * nq
    ensures (t * t) as real * ((top as real + m as real) * (top as real + m as real)) >= 4.0 * (m as real * top as real) * nq as real
  {
  }

  lemma {:induction false} Rescale(j: real, r: real, m: real, top: real, d: real, tt: real)
    requires top > 0.0 && d > 0.0 && r * top == m && j * d == tt
    requires tt * ((top + m) * (top + m)) >= 4.0 * (m * top) * d
    ensures j * ((1.0 + r) * (1.0 + r)) >= 4.0 * r
  {
    var c := d * (top * top);
    var area := top * top;
    PositiveProductIs(top, top, area);
    PositiveProductIs(d, area, c);
    assert (1.0 + r) * top == top + m;
    var x := (1.0 + r) * (1.0 + r);
    assert x * (top * top) == (top + m) * (top + m);
    assert (j * x) * c == (j * d) * (x * (top * top));
    assert (4.0 * r) * c == 4.0 * ((r * top) * top) * d;
    CancelOrder(4.0 * r, j * x, c);
  }

  /** With the registered gates, a ratio of at least 0.8 already implies an index of at least 0.95. */
  lemma {:induction false} RatioGateImpliesJainGate(xs: seq<nat>)
    requires xs != [] && Ratio(xs) >= 0.8
    ensures Jain(xs) >= 0.95
  {
    JainAtLeast(xs);
    GateArithmetic(Jain(xs), Ratio(xs), (1.0 + Ratio(xs)) * (1.0 + Ratio(xs)));
  }

  lemma {:induction false} GateArithmetic(j: real, r: real, x: real)
    requires 0.8 <= r <= 1.0 && x == (1.0 + r) * (1.0 + r) && j * x >= 4.0 * r
    ensures j >= 0.95
  {
    var slack := (r - 0.8) * (1.0 - r);
    ProductIs(r - 0.8, 1.0 - r, slack);
    PositiveProductIs(1.0 + r, 1.0 + r, x);
    assert 4.0 * r - 0.95 * x == 0.95 * slack + 0.39 * r - 0.19;
    CancelOrder(0.95, j, x);
  }
}

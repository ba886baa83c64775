/** Calibration bins, Brier score and expected calibration error of benches/answer-quality/metrics.py, over reals. */
module Calibration {
  import opened Wrappers
  import opened Reals

  datatype Label = Supported | Unsupported | Contradicted | Unknown

  datatype Claim = Claim(confidence: Option<real>, verdict: Label)

  /** A claim with a confidence and a known label. */
  datatype Point = Point(confidence: real, supported: bool)

  datatype Bin = Bin(count: nat, confidence: Option<real>, accuracy: Option<real>)

  const BIN_COUNT: nat := 10

  datatype Report = Report(bins: seq<Bin>, brier: Option<real>, ece: Option<real>)

  function Calibrated(claims: seq<Claim>): (r: seq<Point>) {
    if claims == [] then [] else
      var c := claims[|claims| - 1];
      Calibrated(claims[..|claims| - 1])
      + if c.confidence.Some? && c.verdict != Unknown then [Point(c.confidence.value, c.verdict == Supported)] else []
  }

  /** What validation demands of every confidence that is given. */
  predicate Probabilities(claims: seq<Claim>) {
    claims == [] ||
    (var c := claims[|claims| - 1];
     (c.confidence.Some? ==> 0.0 <= c.confidence.value <= 1.0) && Probabilities(claims[..|claims| - 1]))
  }

  function Hit(c: Point): (r: real) { if c.supported then 1.0 else 0.0 }

  function Abs(x: real): (r: real) { if x < 0.0 then -x else x }

  function BinOf(c: Point): (r: int) {
    var index := (10.0 * c.confidence).Floor;
    if index < 9 then index else 9
  }

  function InBin(cs: seq<Point>, k: int): (r: seq<Point>) {
    if cs == [] then [] else
      InBin(cs[..|cs| - 1], k) + if BinOf(cs[|cs| - 1]) == k then [cs[|cs| - 1]] else []
  }

  // ---------------------------------------------------------------- sums

  function Confidence(cs: seq<Point>): (r: real) {
    if cs == [] then 0.0 else Confidence(cs[..|cs| - 1]) + cs[|cs| - 1].confidence
  }

  function Hits(cs: seq<Point>): (r: nat) {
    if cs == [] then 0 else Hits(cs[..|cs| - 1]) + if cs[|cs| - 1].supported then 1 else 0
  }

  function Error(c: Point): (r: real) { c.confidence - Hit(c) }

  function Errors(cs: seq<Point>): (r: real) {
    if cs == [] then 0.0 else Errors(cs[..|cs| - 1]) + Error(cs[|cs| - 1])
  }

  function AbsoluteErrors(cs: seq<Point>): (r: real) {
    if cs == [] then 0.0 else AbsoluteErrors(cs[..|cs| - 1]) + Abs(Error(cs[|cs| - 1]))
  }

  function SquaredErrors(cs: seq<Point>): (r: real) {
    if cs == [] then 0.0 else SquaredErrors(cs[..|cs| - 1]) + Error(cs[|cs| - 1]) * Error(cs[|cs| - 1])
  }

  function BinFor(values: seq<Point>): (r: Bin) {
    var n := |values| as real;
    if values == [] then Bin(0, None, None)
    else Bin(|values|, Some(Confidence(values) / n), Some(Hits(values) as real / n))
  }

  function Bins(cs: seq<Point>, k: nat): (r: seq<Bin>)
    ensures |r| == k
  {
    if k == 0 then [] else Bins(cs, k - 1) + [BinFor(InBin(cs, k - 1))]
  }

  function Gap(b: Bin): (r: real) {
    if b.confidence.Some? && b.accuracy.Some? then b.count as real * Abs(b.confidence.value - b.accuracy.value) else 0.0
  }

  function Gaps(bins: seq<Bin>): (r: real) {
    if bins == [] then 0.0 else Gaps(bins[..|bins| - 1]) + Gap(bins[|bins| - 1])
  }

  function Brier(cs: seq<Point>): (r: real)
    requires cs != []
  {
    SquaredErrors(cs) / |cs| as real
  }

  function Ece(cs: seq<Point>): (r: real)
    requires cs != []
  {
    EceOver(cs, BIN_COUNT)
  }

  function EceOver(cs: seq<Point>, k: nat): (r: real)
    requires cs != []
  {
    Gaps(Bins(cs, k)) / |cs| as real
  }

  // ---------------------------------------------------------------- the summary loop

  method Summarize(claims: seq<Claim>) returns (r: Report)
    ensures var cs := Calibrated(claims);
            && r.bins == Bins(cs, BIN_COUNT)
            && r.brier == (if cs == [] then None else Some(Brier(cs)))
            && r.ece == (if cs == [] then None else Some(Ece(cs)))
  {
    var cs := Calibrated(claims);
    var bins: seq<Bin> := [];
    for index := 0 to BIN_COUNT
      invariant bins == Bins(cs, index)
    {
      var values := InBin(cs, index);
      bins := bins + [BinFor(values)];
    }
    if cs == [] {
      return Report(bins, None, None);
    }
    var gaps := 0.0;
    for i := 0 to |bins|
      invariant gaps == Gaps(bins[..i])
    {
      assert bins[..i + 1][..i] == bins[..i];
      gaps := gaps + Gap(bins[i]);
    }
    assert bins[..|bins|] == bins;
    r := Report(bins, Some(SquaredErrors(cs) / |cs| as real), Some(gaps / |cs| as real));
  }

  // ---------------------------------------------------------------- the bins partition the claims

  function Counts(bins: seq<Bin>): (r: nat) {
    if bins == [] then 0 else Counts(bins[..|bins| - 1]) + bins[|bins| - 1].count
  }

  predicate InUnit(cs: seq<Point>) {
    cs == [] || (0.0 <= cs[|cs| - 1].confidence <= 1.0 && InUnit(cs[..|cs| - 1]))
  }

  lemma {:induction false} BinInRange(c: Point)
    requires 0.0 <= c.confidence <= 1.0
    ensures 0 <= BinOf(c) < 10
  {
  }

  lemma {:induction false} CountGrows(cs: seq<Point>, c: Point, k: nat)
    ensures Counts(Bins(cs + [c], k)) == Counts(Bins(cs, k)) + if 0 <= BinOf(c) < k then 1 else 0
  {
    if k > 0 {
      CountGrows(cs, c, k - 1);
      assert (cs + [c])[..|cs|] == cs;
      assert Bins(cs + [c], k)[..k - 1] == Bins(cs + [c], k - 1);
      assert Bins(cs, k)[..k - 1] == Bins(cs, k - 1);
    }
  }

  lemma {:induction false} NoCounts(k: nat)
    ensures Counts(Bins([], k)) == 0
  {
    if k > 0 {
      NoCounts(k - 1);
      assert Bins([], k)[..k - 1] == Bins([], k - 1);
    }
  }

  lemma {:induction false} CalibratedInUnit(claims: seq<Claim>)
    requires Probabilities(claims)
    ensures InUnit(Calibrated(claims))
  {
    if claims != [] {
      var before, c := claims[..|claims| - 1], claims[|claims| - 1];
      CalibratedInUnit(before);
      var cs := Calibrated(before);
      if c.confidence.Some? && c.verdict != Unknown {
        assert Calibrated(claims)[..|cs|] == cs;
      } else {
        assert Calibrated(claims) == cs;
      }
    }
  }

  /** Every calibrated claim is counted in exactly one of the ten bins. */
  lemma {:induction false} BinsPartition(cs: seq<Point>)
    requires InUnit(cs)
    ensures Counts(Bins(cs, BIN_COUNT)) == |cs|
  {
    if cs == [] {
      NoCounts(BIN_COUNT);
    } else {
      var before, c := cs[..|cs| - 1], cs[|cs| - 1];
      assert cs == before + [c];
      BinsPartition(before);
      BinInRange(c);
      CountGrows(before, c, BIN_COUNT);
    }
  }

  // ---------------------------------------------------------------- the triangle inequality, bin by bin

  lemma {:induction false} ErrorsSplit(cs: seq<Point>)
    ensures Errors(cs) == Confidence(cs) - Hits(cs) as real
  {
    if cs != [] {
      ErrorsSplit(cs[..|cs| - 1]);
    }
  }

  /** A bin's weighted gap is the absolute value of its summed errors. */
  lemma {:induction false} GapIsSummedError(values: seq<Point>)
    ensures Gap(BinFor(values)) == Abs(Errors(values))
  {
    if values != [] {
      ErrorsSplit(values);
      GapIsDifference(values);
    }
  }

  lemma {:induction false} GapIsDifference(values: seq<Point>)
    requires values != []
    ensures Gap(BinFor(values)) == Abs(Confidence(values) - Hits(values) as real)
  {
    var n, a, b := |values| as real, Confidence(values), Hits(values) as real;
    var x, y := a / n, b / n;
    var gap := n * Abs(x - y);
    GapOf(values, n, x, y, gap);
    GapOfMeans(n, a, b, x, y, gap);
  }

  lemma {:induction false} GapOf(values: seq<Point>, n: real, x: real, y: real, gap: real)
    requires values != [] && n == |values| as real && x == Confidence(values) / n && y == Hits(values) as real / n
    requires gap == n * Abs(x - y)
    ensures Gap(BinFor(values)) == gap
  {
  }

  lemma {:induction false} GapOfMeans(n: real, a: real, b: real, x: real, y: real, gap: real)
    requires n > 0.0 && x == a / n && y == b / n && gap == n * Abs(x - y)
    ensures gap == Abs(a - b)
  {
    Quotient(a, n);
    Quotient(b, n);
    WeightedGap(n, x, y, a, b);
  }

  lemma {:induction false} WeightedGap(n: real, x: real, y: real, a: real, b: real)
    requires n > 0.0 && x * n == a && y * n == b
    ensures n * Abs(x - y) == Abs(a - b)
  {
    if x < y {
      StrictScale(x, y, n);
    } else {
      Scale(y, x, n);
    }
  }

  /** The bins' summed errors in absolute value, added up. */
  function SummedErrors(cs: seq<Point>, k: nat): (r: real)
    ensures r >= 0.0
  {
    if k == 0 then 0.0 else SummedErrors(cs, k - 1) + Abs(Errors(InBin(cs, k - 1)))
  }

  lemma {:induction false} GapsAreSummedErrors(cs: seq<Point>, k: nat)
    ensures Gaps(Bins(cs, k)) == SummedErrors(cs, k)
  {
    if k > 0 {
      GapsAreSummedErrors(cs, k - 1);
      assert Bins(cs, k)[..k - 1] == Bins(cs, k - 1);
      GapIsSummedError(InBin(cs, k - 1));
    }
  }

  lemma {:induction false} SummedErrorsGrow(cs: seq<Point>, c: Point, k: nat)
    ensures SummedErrors(cs + [c], k) <= SummedErrors(cs, k) + if 0 <= BinOf(c) < k then Abs(Error(c)) else 0.0
  {
    if k > 0 {
      SummedErrorsGrow(cs, c, k - 1);
      assert (cs + [c])[..|cs|] == cs;
      if BinOf(c) == k - 1 {
        assert (InBin(cs, k - 1) + [c])[..|InBin(cs, k - 1)|] == InBin(cs, k - 1);
        assert Errors(InBin(cs + [c], k - 1)) == Errors(InBin(cs, k - 1)) + Error(c);
      } else {
        assert InBin(cs + [c], k - 1) == InBin(cs, k - 1);
      }
    }
  }

  lemma {:induction false} NoSummedErrors(k: nat)
    ensures SummedErrors([], k) == 0.0
  {
    if k > 0 {
      NoSummedErrors(k - 1);
    }
  }

  lemma {:induction false} SummedWithinAbsolute(cs: seq<Point>, k: nat)
    ensures SummedErrors(cs, k) <= AbsoluteErrors(cs)
  {
    if cs == [] {
      NoSummedErrors(k);
    } else {
      var before, c := cs[..|cs| - 1], cs[|cs| - 1];
      assert cs == before + [c];
      SummedWithinAbsolute(before, k);
      SummedErrorsGrow(before, c, k);
    }
  }

  // ---------------------------------------------------------------- Cauchy-Schwarz

  lemma {:induction false} AbsoluteWithinSquares(cs: seq<Point>)
    ensures AbsoluteErrors(cs) >= 0.0
    ensures AbsoluteErrors(cs) * AbsoluteErrors(cs) <= |cs| as real * SquaredErrors(cs)
  {
    if cs != [] {
      var before, c := cs[..|cs| - 1], cs[|cs| - 1];
      AbsoluteWithinSquares(before);
      CauchyStep(|before| as real, AbsoluteErrors(before), SquaredErrors(before), Abs(Error(c)),
                 AbsoluteErrors(before) * AbsoluteErrors(before));
      assert Abs(Error(c)) * Abs(Error(c)) == Error(c) * Error(c);
    }
  }

  lemma {:induction false} CauchyStep(n: real, s: real, q: real, a: real, ss: real)
    requires n >= 0.0 && s >= 0.0 && a >= 0.0 && ss == s * s && ss <= n * q && (n == 0.0 ==> s == 0.0 && q == 0.0)
    ensures (s + a) * (s + a) <= (n + 1.0) * (q + a * a)
  {
    var aa, sa := a * a, s * a;
    var x := q + n * aa - 2.0 * sa;
    if n > 0.0 {
      var t := s - n * a;
      var tt := t * t;
      Square(t);
      Remainder(n, s, q, a, ss, tt);
      CancelOrder(0.0, x, n);
    }
    assert (n + 1.0) * (q + aa) - (s + a) * (s + a) == (n * q - ss) + x;
  }

  lemma {:induction false} Remainder(n: real, s: real, q: real, a: real, ss: real, tt: real)
    requires ss == s * s && ss <= n * q && tt == (s - n * a) * (s - n * a)
    ensures (q + n * (a * a) - 2.0 * (s * a)) * n >= tt
    ensures tt >= 0.0
  {
  }

  lemma {:induction false} SquareWithin(e: real, a: real, x: real)
    requires 0.0 <= e <= a && a * a <= x
    ensures e * e <= x
  {
  }

  lemma {:induction false} AnyWithinSquares(cs: seq<Point>, e: real, x: real)
    requires 0.0 <= e <= AbsoluteErrors(cs) && x == |cs| as real * SquaredErrors(cs)
    ensures e * e <= x
  {
    AbsoluteWithinSquares(cs);
    SquareWithin(e, AbsoluteErrors(cs), x);
  }

  lemma {:induction false} ErrorsWithinBrier(cs: seq<Point>, n: real, e: real, q: real, mean: real, score: real)
    requires cs != [] && n == |cs| as real && q == SquaredErrors(cs) && 0.0 <= e <= AbsoluteErrors(cs)
    requires mean == e / n && score == q / n
    ensures mean * mean <= score
  {
    AnyWithinSquares(cs, e, n * q);
    MeanSquare(n, e, q, mean, score);
  }

  /** The calibration error squared never exceeds the Brier score. */
  lemma {:induction false} EceWithinBrier(cs: seq<Point>)
    requires cs != []
    ensures Ece(cs) * Ece(cs) <= Brier(cs)
  {
    WithinBrier(cs, BIN_COUNT, Ece(cs), Brier(cs));
  }

  lemma {:induction false} WithinBrier(cs: seq<Point>, k: nat, ece: real, score: real)
    requires cs != [] && ece == EceOver(cs, k) && score == Brier(cs)
    ensures ece * ece <= score
  {
    SummedWithinAbsolute(cs, k);
    GapsAreSummedErrors(cs, k);
    ErrorsWithinBrier(cs, |cs| as real, SummedErrors(cs, k), SquaredErrors(cs), ece, score);
  }

  lemma {:induction false} MeanSquare(n: real, e: real, b: real, mean: real, score: real)
    requires n > 0.0 && e * e <= n * b && mean == e / n && score == b / n
    ensures mean * mean <= score
  {
    Quotient(e, n);
    Quotient(b, n);
    var nn := n * n;
    PositiveProductIs(n, n, nn);
    assert (mean * mean) * nn == e * e;
    assert score * nn == n * b;
    CancelOrder(mean * mean, score, nn);
  }
}

/** The Wilson interval of benches/cigarbench/cigarbench.py, over reals, with its rounding to six places. */
module Wilson {
  import opened Reals

  const Z: real := 1.959963984540054

  /** A square root at one point. */
  predicate IsRoot(x: real, r: real) { r >= 0.0 && r * r == x }

  // ---------------------------------------------------------------- rounding

  /** Half to even, as Python rounds. */
  function HalfEven(x: real): (r: int) {
    var below := x.Floor;
    var rest := x - below as real;
    if rest < 0.5 then below
    else if rest > 0.5 then below + 1
    else if below % 2 == 0 then below else below + 1
  }

  function Round6(x: real): (r: real) { HalfEven(1_000_000.0 * x) as real / 1_000_000.0 }

  lemma HalfEvenMonotone(x: real, y: real)
    requires x <= y
    ensures HalfEven(x) <= HalfEven(y)
  {
  }

  lemma {:induction false} RoundMonotone(x: real, y: real)
    requires x <= y
    ensures Round6(x) <= Round6(y)
  {
    HalfEvenMonotone(1_000_000.0 * x, 1_000_000.0 * y);
    QuotientOrder(HalfEven(1_000_000.0 * x) as real, HalfEven(1_000_000.0 * y) as real, 1_000_000.0);
  }

  /** Rounding never moves a value across a whole number. */
  lemma {:induction false} RoundKeepsWhole(x: real, k: int)
    ensures x >= k as real ==> Round6(x) >= k as real
    ensures x <= k as real ==> Round6(x) <= k as real
  {
    var exact := 1_000_000.0 * k as real;
    assert exact == (1_000_000 * k) as real;
    assert exact.Floor == 1_000_000 * k;
    assert HalfEven(exact) == 1_000_000 * k;
    assert Round6(k as real) == k as real;
    if x >= k as real {
      RoundMonotone(k as real, x);
    }
    if x <= k as real {
      RoundMonotone(x, k as real);
    }
  }

  // ---------------------------------------------------------------- the interval

  /** What the radius takes the square root of. */
  function Spread(z: real, p: real, n: real): (r: real)
    requires n > 0.0
  {
    p * (1.0 - p) / n + z * z / (4.0 * n * n)
  }

  function Center(z: real, p: real, n: real): (r: real)
    requires n > 0.0
  {
    Square(z);
    assert z * z / n >= 0.0 by { QuotientOrder(0.0, z * z, n); }
    (p + z * z / (2.0 * n)) / (1.0 + z * z / n)
  }

  function Radius(z: real, n: real, root: real): (r: real)
    requires n > 0.0
  {
    Square(z);
    assert z * z / n >= 0.0 by { QuotientOrder(0.0, z * z, n); }
    z * root / (1.0 + z * z / n)
  }

  function Lower(center: real, radius: real): (r: real) {
    if center - radius > 0.0 then center - radius else 0.0
  }

  function Upper(center: real, radius: real): (r: real) {
    if center + radius < 1.0 then center + radius else 1.0
  }

  /** The observed rate. */
  function Rate(successes: nat, count: nat): (r: real)
    requires 0 < count && successes <= count
    ensures 0.0 <= r <= 1.0
  {
    QuotientOrder(0.0, successes as real, count as real);
    QuotientOrder(successes as real, count as real, count as real);
    successes as real / count as real
  }

  /** The reported interval in percent; `root` is the square root the source computes. */
  function Interval(successes: nat, count: nat, root: real): (r: (real, real))
    requires 0 < count && successes <= count
  {
    var p, n := Rate(successes, count), count as real;
    var center, radius := Center(Z, p, n), Radius(Z, n, root);
    (Round6(100.0 * Lower(center, radius)), Round6(100.0 * Upper(center, radius)))
  }

  predicate Rooted(successes: nat, count: nat, root: real)
    requires 0 < count && successes <= count
  {
    IsRoot(Spread(Z, Rate(successes, count), count as real), root)
  }

  // ---------------------------------------------------------------- what the interval guarantees

  /** With w = z^2/n, the scaled radius s = z * root satisfies s^2 = w p (1 - p) + w^2 / 4. */
  lemma {:induction false} ScaledRadius(z: real, p: real, n: real, root: real, w: real, s: real)
    requires n > 0.0 && root * root == Spread(z, p, n) && w * n == z * z && s == z * root
    ensures s * s == w * (p * (1.0 - p)) + w * w / 4.0
  {
  }

  lemma {:induction false} HalfWidth(w: real, p: real, s: real)
    requires w > 0.0 && 0.0 <= p <= 1.0 && s >= 0.0 && s * s == w * (p * (1.0 - p)) + w * w / 4.0
    ensures -s <= w * (0.5 - p) <= s
    ensures s >= w / 2.0
  {
    var q := p * (1.0 - p);
    Product(p, 1.0 - p);
    Product(w, q);
    Product(w, w * q);
    var a, h := w * (0.5 - p), w / 2.0;
    assert a * a == w * w / 4.0 - w * (w * q);
    SquareOrder(a, s);
    SquareOrder(h, s);
  }

  /** The parts of the interval with the common denominator d = 1 + w. */
  lemma {:induction false} Parts(z: real, p: real, n: real, root: real, w: real, c: real, r: real, s: real)
    requires n > 0.0 && w * n == z * z && w > 0.0 && c == Center(z, p, n) && r == Radius(z, n, root) && s == z * root
    ensures c * (1.0 + w) == p + w / 2.0 && r * (1.0 + w) == s
  {
  }

  lemma {:induction false} Weight(z: real, n: real) returns (w: real)
    requires z > 0.0 && n > 0.0
    ensures w > 0.0 && w * n == z * z
  {
    var zz := z * z;
    PositiveProductIs(z, z, zz);
    PositiveQuotient(zz, n);
    w := zz / n;
  }

  lemma {:induction false} CancelStrict(a: real, b: real, c: real)
    requires c > 0.0 && a * c < b * c
    ensures a < b
  {
  }

  lemma {:induction false} Bracket(c: real, r: real, w: real, p: real, s: real)
    requires w > 0.0 && c * (1.0 + w) == p + w / 2.0 && r * (1.0 + w) == s && -s <= w * (0.5 - p) <= s
    ensures c - r <= p <= c + r
  {
  }

  /** Center c and radius r around the observed rate, with w = z^2 / n and the scaled radius s = z * root. */
  lemma {:induction false} AroundRate(z: real, p: real, n: real, root: real, c: real, r: real, s: real) returns (w: real)
    requires z > 0.0 && n > 0.0 && 0.0 <= p <= 1.0 && IsRoot(Spread(z, p, n), root)
    requires c == Center(z, p, n) && r == Radius(z, n, root) && s == z * root
    ensures w > 0.0 && w * n == z * z
    ensures c * (1.0 + w) == p + w / 2.0 && r * (1.0 + w) == s
    ensures -s <= w * (0.5 - p) <= s && s >= w / 2.0
  {
    w := Weight(z, n);
    ScaledWidth(z, p, n, root, w, s);
    Parts(z, p, n, root, w, c, r, s);
  }

  lemma {:induction false} ScaledWidth(z: real, p: real, n: real, root: real, w: real, s: real)
    requires z > 0.0 && n > 0.0 && 0.0 <= p <= 1.0 && IsRoot(Spread(z, p, n), root) && w > 0.0 && w * n == z * z && s == z * root
    ensures -s <= w * (0.5 - p) <= s && s >= w / 2.0
  {
    ScaledRadius(z, p, n, root, w, s);
    ProductIs(z, root, s);
    HalfWidth(w, p, s);
  }

  lemma {:induction false} RateBetween(z: real, p: real, n: real, root: real, c: real, r: real)
    requires z > 0.0 && n > 0.0 && 0.0 <= p <= 1.0 && IsRoot(Spread(z, p, n), root)
    requires c == Center(z, p, n) && r == Radius(z, n, root)
    ensures c - r <= p <= c + r
  {
    var s := z * root;
    var w := AroundRate(z, p, n, root, c, r, s);
    Bracket(c, r, w, p, s);
  }

  /** Before rounding: the interval contains the observed rate and stays within [0, 1]. */
  lemma {:induction false} ContainsRate(z: real, p: real, n: real, root: real)
    requires z > 0.0 && n > 0.0 && 0.0 <= p <= 1.0 && IsRoot(Spread(z, p, n), root)
    ensures 0.0 <= Lower(Center(z, p, n), Radius(z, n, root)) <= p <= Upper(Center(z, p, n), Radius(z, n, root)) <= 1.0
  {
    RateBetween(z, p, n, root, Center(z, p, n), Radius(z, n, root));
  }

  lemma {:induction false} HighEnd(high: real, w: real, n: real, zz: real)
    requires n > 0.0 && w * n == zz && high * (1.0 + w) >= w
    ensures high * (n + zz) >= zz
  {
  }

  lemma {:induction false} UpperEnd(c: real, r: real, w: real, p: real, s: real, n: real, zz: real)
    requires n > 0.0 && w * n == zz && w > 0.0
    requires c * (1.0 + w) == p + w / 2.0 && r * (1.0 + w) == s && s >= w / 2.0 && p >= 0.0
    ensures Upper(c, r) * (n + zz) >= zz
  {
    HighEnd(if c + r < 1.0 then c + r else 1.0, w, n, zz);
  }

  /** Whatever was observed, the upper end is at least z^2 / (n + z^2). */
  lemma {:induction false} UpperAtLeast(z: real, p: real, n: real, root: real, zz: real)
    requires z > 0.0 && n > 0.0 && 0.0 <= p <= 1.0 && IsRoot(Spread(z, p, n), root) && zz == z * z
    ensures Upper(Center(z, p, n), Radius(z, n, root)) * (n + zz) >= zz
  {
    UpperEndAtLeast(z, p, n, root, Center(z, p, n), Radius(z, n, root), zz);
  }

  lemma {:induction false} UpperEndAtLeast(z: real, p: real, n: real, root: real, c: real, r: real, zz: real)
    requires z > 0.0 && n > 0.0 && 0.0 <= p <= 1.0 && IsRoot(Spread(z, p, n), root)
    requires c == Center(z, p, n) && r == Radius(z, n, root) && zz == z * z
    ensures Upper(c, r) * (n + zz) >= zz
  {
    var s := z * root;
    var w := AroundRate(z, p, n, root, c, r, s);
    UpperEnd(c, r, w, p, s, n, zz);
  }

  lemma ZSquared()
    ensures 3.8414588 <= Z * Z <= 3.8414589
  {
  }

  /** A harm bound below one percent needs 381 independent tasks, however few of them were harmed. */
  lemma {:induction false} BelowOnePercentNeedsTasks(successes: nat, count: nat, root: real)
    requires 0 < count && successes <= count && Rooted(successes, count, root)
    requires Interval(successes, count, root).1 < 1.0
    ensures count >= 381
  {
    ZSquared();
    NeedsTasksAt(Z, Rate(successes, count), count as real, root);
  }

  lemma {:induction false} NeedsTasksAt(z: real, p: real, n: real, root: real)
    requires z > 0.0 && z * z >= 3.8414588 && n > 0.0 && 0.0 <= p <= 1.0 && IsRoot(Spread(z, p, n), root)
    requires Round6(100.0 * Upper(Center(z, p, n), Radius(z, n, root))) < 1.0
    ensures n > 380.0
  {
    UpperAtLeast(z, p, n, root, z * z);
    NeedsTasks(Upper(Center(z, p, n), Radius(z, n, root)), n, z * z);
  }

  lemma {:induction false} NeedsTasks(upper: real, n: real, zz: real)
    requires Round6(100.0 * upper) < 1.0 && n > 0.0 && zz >= 3.8414588 && upper * (n + zz) >= zz
    ensures n > 380.0
  {
    RoundKeepsWhole(100.0 * upper, 1);
    StrictScale(upper, 0.01, n + zz);
  }

  /** The bound is tight: 381 tasks without harm are enough. */
  lemma {:induction false} TightAt381(root: real)
    requires Rooted(0, 381, root)
    ensures Interval(0, 381, root).1 < 1.0
  {
    var n := 381.0;
    assert Rate(0, 381) == 0.0;
    var w := Weight(Z, n);
    var c, r := Center(Z, 0.0, n), Radius(Z, n, root);
    ScaledRadius(Z, 0.0, n, root, w, Z * root);
    SquareOrder(Z * root, w / 2.0);
    Parts(Z, 0.0, n, root, w, Center(Z, 0.0, n), Radius(Z, n, root), Z * root);
    ZSquared();
    SmallUpper(c + r, w, Z * Z);
    RoundBelow(100.0 * Upper(c, r));
  }

  lemma {:induction false} SmallUpper(high: real, w: real, zz: real)
    requires w * 381.0 == zz && 3.8414588 <= zz <= 3.8414589 && high * (1.0 + w) <= w
    ensures high < 0.00999
  {
    assert 0.01 < w < 0.010083;
    assert w < 0.00999 * (1.0 + w);
    CancelStrict(high, 0.00999, 1.0 + w);
  }

  lemma {:induction false} RoundBelow(x: real)
    requires x < 0.999
    ensures Round6(x) < 1.0
  {
  }
}

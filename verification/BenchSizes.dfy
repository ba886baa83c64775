/** How long a produced plan is, and so when `make_plan` can write it. */
module BenchSizes {
  import opened Wrappers
  import opened Sequences
  import opened Listings
  import opened BenchRecords
  import opened BenchOrders
  import opened BenchCounterbalance
  import opened BenchPlan
  import opened BenchPlanning

  // ---------------------------------------------------------------- the length of a produced plan

  /** Both listed assignments of a pair; which goes first does not matter. */
  function PairBytes(setup: Setup, d: Dataset, sample: nat): (r: nat) {
    2 * (2 + CommonBytes(CommonFor(setup, d, sample)) + ORDER_NAME + 1) + TreatmentBytes(Baseline) + TreatmentBytes(Cigar)
  }

  function PairLength(setup: Setup, d: Dataset): (r: nat -> nat) { (sample: nat) => PairBytes(setup, d, sample) }

  /** The sum of the first `n` values. */
  function SumTo(f: nat -> nat, n: nat): (r: nat) {
    if n == 0 then 0 else SumTo(f, n - 1) + f(n - 1)
  }

  function SampleBytes(setup: Setup, d: Dataset, n: nat): (r: nat) { SumTo(PairLength(setup, d), n) }

  function DatasetBytes(setup: Setup, n: nat): (r: Dataset -> int) { (d: Dataset) => SampleBytes(setup, d, n) }

  /** The length of the plan for a manifest, from the caller's choices alone. */
  function PlannedBytes(setup: Setup, ds: seq<Dataset>, n: nat): (r: nat) {
    PLAN_NAMES + 1 + Total(DatasetBytes(setup, n), ds)
  }

  lemma {:induction false} OneDigit(order: int)
    requires order == 1 || order == 2
    ensures IntegerBytes(order) == 1
  {
    assert order / 10 == 0;
    assert Decimal(0, 0) == [];
    assert Decimal(order, 1) == Decimal(0, 0) + [Digit(order)];
  }

  predicate Placed(orders: map<Slot, int>, slot: Slot) {
    OrderAt(orders, slot) == 1 || OrderAt(orders, slot) == 2
  }

  lemma {:induction false} PairTally(setup: Setup, d: Dataset, sample: nat, orders: map<Slot, int>)
    requires Placed(orders, Slot(d.id, sample))
    ensures Tally(ListedBytes(), PairFor(setup, d, sample, orders)) == PairLength(setup, d)(sample)
  {
    var pair := PairFor(setup, d, sample, orders);
    OneDigit(pair[0].order);
    OneDigit(pair[1].order);
    TallyTwo(ListedBytes(), pair[0], pair[1]);
  }

  lemma {:induction false} TallyTwo<T>(f: T -> int, x: T, y: T)
    ensures Tally(f, [x, y]) == f(x) + f(y)
  {
    assert [x, y][1..] == [y];
    assert Tally(f, [y]) == f(y) + Tally(f, [y][1..]);
  }

  predicate PairsWeigh(w: Assignment -> int, f: nat -> nat, setup: Setup, d: Dataset, n: nat, orders: map<Slot, int>) {
    n == 0 || (PairsWeigh(w, f, setup, d, n - 1, orders) && Tally(w, PairFor(setup, d, n - 1, orders)) == f(n - 1))
  }

  lemma {:induction false} SamplesTally(w: Assignment -> int, f: nat -> nat, setup: Setup, d: Dataset, n: nat, orders: map<Slot, int>)
    requires PairsWeigh(w, f, setup, d, n, orders)
    ensures Tally(w, SamplesFor(setup, d, n, orders)) == SumTo(f, n)
  {
    if n > 0 {
      SamplesTally(w, f, setup, d, n - 1, orders);
      var before, pair := SamplesFor(setup, d, n - 1, orders), PairFor(setup, d, n - 1, orders);
      assert SamplesFor(setup, d, n, orders) == before + pair;
      TallyConcat(w, before, pair);
    }
  }

  lemma {:induction false} AssignmentsTally(w: Assignment -> int, g: Dataset -> int, setup: Setup, ds: seq<Dataset>, n: nat, orders: map<Slot, int>)
    requires forall d :: d in ds ==> Tally(w, SamplesFor(setup, d, n, orders)) == g(d)
    ensures Tally(w, AssignmentsFor(setup, ds, n, orders)) == Tally(g, ds)
  {
    if ds != [] {
      var before, d := ds[..|ds| - 1], ds[|ds| - 1];
      assert ds == before + [d];
      AssignmentsTally(w, g, setup, before, n, orders);
      TallyConcat(w, AssignmentsFor(setup, before, n, orders), SamplesFor(setup, d, n, orders));
      TallyConcat(g, before, [d]);
      assert Tally(g, [d]) == g(d) + Tally(g, [d][1..]);
    }
  }

  lemma {:induction false} OneMorePair(w: Assignment -> int, f: nat -> nat, setup: Setup, d: Dataset, n: nat, orders: map<Slot, int>)
    requires PairsWeigh(w, f, setup, d, n, orders) && Tally(w, PairFor(setup, d, n, orders)) == f(n)
    ensures PairsWeigh(w, f, setup, d, n + 1, orders)
  {
  }

  lemma {:induction false} SeededPairsWeigh(setup: Setup, d: Dataset, n: nat, orders: map<Slot, int>)
    requires forall i: nat :: i < n ==> Placed(orders, Slot(d.id, i))
    ensures PairsWeigh(ListedBytes(), PairLength(setup, d), setup, d, n, orders)
  {
    if n > 0 {
      SeededPairsWeigh(setup, d, n - 1, orders);
      PairTally(setup, d, n - 1, orders);
      OneMorePair(ListedBytes(), PairLength(setup, d), setup, d, n - 1, orders);
    }
  }

  lemma {:induction false} DatasetTally(shuffle: Shuffle, setup: Setup, ds: seq<Dataset>, n: nat, seed: Seed, d: Dataset)
    requires DistinctIds(ds) && d in ds
    ensures Tally(ListedBytes(), SamplesFor(setup, d, n, Orders(shuffle, ds, n, seed))) == DatasetBytes(setup, n)(d)
  {
    var orders := Orders(shuffle, ds, n, seed);
    forall i: nat | i < n ensures Placed(orders, Slot(d.id, i)) {
      OrdersDefined(shuffle, ds, n, seed, d, i);
    }
    SeededPairsWeigh(setup, d, n, orders);
    SamplesTally(ListedBytes(), PairLength(setup, d), setup, d, n, orders);
  }

  lemma {:induction false} SeededTally(shuffle: Shuffle, setup: Setup, ds: seq<Dataset>, n: nat, seed: Seed)
    requires DistinctIds(ds)
    ensures Tally(ListedBytes(), AssignmentsOf(setup, ds, n, Orders(shuffle, ds, n, seed))) == Tally(DatasetBytes(setup, n), ds)
  {
    var orders, sorted := Orders(shuffle, ds, n, seed), SortDatasets(ds);
    forall d | d in sorted ensures Tally(ListedBytes(), SamplesFor(setup, d, n, orders)) == DatasetBytes(setup, n)(d) {
      SortByMember(ById(), ds, d);
      DatasetTally(shuffle, setup, ds, n, seed, d);
    }
    AssignmentsTally(ListedBytes(), DatasetBytes(setup, n), setup, sorted, n, orders);
    var made := AssignmentsFor(setup, sorted, n, orders);
    SortByMultiset(InPlanOrder(), made);
    TallyPermutation(ListedBytes(), SortAssignments(made), made);
    SortByMultiset(ById(), ds);
    TallyPermutation(DatasetBytes(setup, n), sorted, ds);
  }

  lemma {:induction false} SomethingPlanned(setup: Setup, ds: seq<Dataset>, n: nat, orders: map<Slot, int>)
    requires ds != [] && n > 0
    ensures AssignmentsOf(setup, ds, n, orders) != []
  {
    var sorted := SortDatasets(ds);
    var last := sorted[|sorted| - 1];
    assert |SamplesFor(setup, last, n, orders)| >= |PairFor(setup, last, n - 1, orders)| == 2;
    assert |AssignmentsFor(setup, sorted, n, orders)| >= |SamplesFor(setup, last, n, orders)|;
  }

  /** The length of a plan does not depend on the seed or the shuffle. */
  lemma {:induction false} PlanLength(shuffle: Shuffle, hash: Hash, setup: Setup, ds: seq<Dataset>, n: nat, seed: Seed)
    requires DistinctIds(ds) && ds != [] && n > 0
    ensures PlanBytes(PlanFor(shuffle, hash, setup, ds, n, seed)) == PlannedBytes(setup, ds, n)
  {
    SeededTally(shuffle, setup, ds, n, seed);
    SomethingPlanned(setup, ds, n, Orders(shuffle, ds, n, seed));
  }

  // ---------------------------------------------------------------- making and writing a plan

  /** `make_plan`: a plan is written exactly when its inputs are acceptable and it fits in 64 MiB. */
  method MakePlan(shuffle: Shuffle, hash: Hash, setup: Setup, ds: seq<Dataset>, replicates: int, seed: Seed)
    returns (r: Option<Plan>)
    ensures r.Some? <==> Plannable(hash, setup, ds, replicates, seed) && PlannedBytes(setup, ds, replicates) <= MAX_INPUT_BYTES
    ensures r.Some? ==> r.value == PlanFor(shuffle, hash, setup, ds, replicates, seed)
  {
    if !ValidManifest(setup.required, ds) || !ValidPins(setup.pins) || !ValidDeclared(setup.files.declared) || !ValidSecret(seed) {
      return None;
    }
    if !Captured(hash, setup.files.environment, ds) || setup.baseline !in setup.files.declared {
      return None;
    }
    if |ds| * replicates * 2 > MAX_ASSIGNMENTS || !IsIdentifier(setup.run) {
      return None;
    }
    var orders := SeededBaselineOrders(shuffle, ds, replicates, seed);
    if orders.None? {
      return None;
    }
    var assignments := Assign(setup, SortDatasets(ds), replicates, orders.value);
    var plan := Sealed(hash, setup, ds, seed, SortAssignments(assignments));
    PlanLength(shuffle, hash, setup, ds, replicates, seed);
    if PlanBytes(plan) > MAX_INPUT_BYTES {
      return None;
    }
    r := Some(plan);
  }

  // ---------------------------------------------------------------- long pins make long plans

  lemma {:induction false} SumAtLeast(f: nat -> nat, n: nat, b: nat)
    requires forall i: nat :: f(i) >= b
    ensures SumTo(f, n) >= n * b
  {
    if n > 0 {
      SumAtLeast(f, n - 1, b);
      assert n * b == (n - 1) * b + b;
    }
  }

  lemma {:induction false} TallyAtLeast<T(!new)>(f: T -> int, xs: seq<T>, b: nat)
    requires forall x :: f(x) >= b
    ensures Tally(f, xs) >= |xs| * b
  {
    if xs != [] {
      TallyAtLeast(f, xs[1..], b);
      assert |xs| * b == (|xs| - 1) * b + b;
    }
  }

  lemma {:induction false} PairAtLeast(setup: Setup, d: Dataset, sample: nat)
    ensures PairBytes(setup, d, sample) >= 2 * PinsBytes(setup.pins)
  {
  }

  lemma {:induction false} DatasetAtLeast(setup: Setup, d: Dataset, n: nat)
    ensures DatasetBytes(setup, n)(d) >= n * (2 * PinsBytes(setup.pins))
  {
    forall i: nat ensures PairLength(setup, d)(i) >= 2 * PinsBytes(setup.pins) {
      PairAtLeast(setup, d, i);
    }
    SumAtLeast(PairLength(setup, d), n, 2 * PinsBytes(setup.pins));
  }

  /** Every assignment repeats the pins, so a plan is at least as long as all those copies. */
  lemma {:induction false} PlannedAtLeast(setup: Setup, ds: seq<Dataset>, n: nat)
    ensures PlannedBytes(setup, ds, n) >= |ds| * (n * (2 * PinsBytes(setup.pins)))
  {
    var each := n * (2 * PinsBytes(setup.pins));
    forall d ensures DatasetBytes(setup, n)(d) >= each {
      DatasetAtLeast(setup, d, n);
    }
    TallyAtLeast(DatasetBytes(setup, n), ds, each);
  }

  // ---------------------------------------------------------------- plans that always fit

  lemma {:induction false} SumAtMost(f: nat -> nat, n: nat, b: nat)
    requires forall i: nat :: i < n ==> f(i) <= b
    ensures SumTo(f, n) <= n * b
  {
    if n > 0 {
      SumAtMost(f, n - 1, b);
      assert n * b == (n - 1) * b + b;
    }
  }

  lemma {:induction false} TallyAtMost<T>(f: T -> int, xs: seq<T>, b: nat)
    requires forall x :: x in xs ==> f(x) <= b
    ensures Tally(f, xs) <= |xs| * b
  {
    if xs != [] {
      TallyAtMost(f, xs[1..], b);
      assert xs[0] in xs;
      assert |xs| * b == (|xs| - 1) * b + b;
    }
  }

  lemma {:induction false} DecimalAtMost(n: nat, width: nat, w: nat)
    requires n < Pow10(w) && width <= w
    ensures |Decimal(n, width)| <= w
    decreases w
  {
    if w > 0 && !(n == 0 && width == 0) {
      DecimalAtMost(n / 10, if width == 0 then 0 else width - 1, w - 1);
    }
  }

  lemma {:induction false} PinsAtMost(pins: Pins)
    requires ValidPins(pins)
    ensures PinsBytes(pins) <= 1380 + IntegerBytes(pins.outputBudget)
  {
    forall x | x in pins.labels ensures LabelBytes()(x) <= 130 {
      assert IsIdentifier(x);
    }
    TallyAtMost(LabelBytes(), pins.labels, 130);
  }

  lemma {:induction false} PairAtMost(setup: Setup, d: Dataset, sample: nat)
    requires |setup.run| <= 128 && |setup.baseline| <= 128 && |d.id| <= 128 && |d.task| <= 128 && |d.stratum| <= 128
    requires sample < MAX_REPLICATES
    ensures PairBytes(setup, d, sample) <= 2 * (1047 + PinsBytes(setup.pins))
  {
    FiveDigits();
    DecimalAtMost(sample, 1, 5);
    DecimalLength(sample, 5);
  }

  predicate ShortNames(setup: Setup, ds: seq<Dataset>) {
    && |setup.run| <= 128 && |setup.baseline| <= 128
    && forall d :: d in ds ==> |d.id| <= 128 && |d.task| <= 128 && |d.stratum| <= 128
  }

  lemma {:induction false} DatasetAtMost(setup: Setup, ds: seq<Dataset>, d: Dataset, n: nat, p: nat)
    requires ShortNames(setup, ds) && d in ds && n <= MAX_REPLICATES && p == PinsBytes(setup.pins)
    ensures DatasetBytes(setup, n)(d) <= n * (2 * (1047 + p))
  {
    forall i: nat | i < n ensures PairLength(setup, d)(i) <= 2 * (1047 + p) {
      PairAtMost(setup, d, i);
    }
    SumAtMost(PairLength(setup, d), n, 2 * (1047 + p));
  }

  lemma {:induction false} PlannedAtMost(setup: Setup, ds: seq<Dataset>, n: nat, p: nat)
    requires ShortNames(setup, ds) && n <= MAX_REPLICATES && p == PinsBytes(setup.pins)
    ensures Tally(DatasetBytes(setup, n), ds) <= |ds| * (n * (2 * (1047 + p)))
  {
    forall d | d in ds ensures DatasetBytes(setup, n)(d) <= n * (2 * (1047 + p)) {
      DatasetAtMost(setup, ds, d, n, p);
    }
    TallyAtMost(DatasetBytes(setup, n), ds, n * (2 * (1047 + p)));
  }

  lemma {:induction false} Bounded(k: nat, n: nat, p: nat)
    requires k * n * 2 <= 27_000 && p <= 1400
    ensures k * (n * (2 * (1047 + p))) <= 27_000 * 2447
  {
    var m := k * n * 2;
    assert k * (n * (2 * (1047 + p))) == m * (1047 + p);
    assert m * (1047 + p) <= m * 2447;
  }

  lemma {:induction false} NamesAreShort(hash: Hash, setup: Setup, ds: seq<Dataset>, n: nat, seed: Seed)
    requires Plannable(hash, setup, ds, n, seed)
    ensures ShortNames(setup, ds)
  {
    assert IsIdentifier(setup.baseline);
    forall d | d in ds ensures |d.id| <= 128 && |d.task| <= 128 && |d.stratum| <= 128 {
      assert ValidDataset(d);
    }
  }

  /** Up to 27,000 assignments with an output budget of at most twenty digits always fit. */
  lemma {:induction false} SmallPlanFits(hash: Hash, setup: Setup, ds: seq<Dataset>, n: nat, seed: Seed)
    requires Plannable(hash, setup, ds, n, seed) && |ds| * n * 2 <= 27_000 && IntegerBytes(setup.pins.outputBudget) <= 20
    ensures PlannedBytes(setup, ds, n) <= MAX_INPUT_BYTES
  {
    var p := PinsBytes(setup.pins);
    PinsAtMost(setup.pins);
    NamesAreShort(hash, setup, ds, n, seed);
    PlannedAtMost(setup, ds, n, p);
    FitsWithin(Tally(DatasetBytes(setup, n), ds), |ds|, n, p);
  }

  lemma {:induction false} FitsWithin(total: int, k: nat, n: nat, p: nat)
    requires total <= k * (n * (2 * (1047 + p))) && k * n * 2 <= 27_000 && p <= 1400
    ensures PLAN_NAMES + 1 + total <= MAX_INPUT_BYTES
  {
    Bounded(k, n, p);
  }
}

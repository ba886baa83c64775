/** What a produced plan is: when it validates, and that it pairs every replicate of every dataset. */
module BenchPlanning {
  import opened Bytes
  import opened Sequences
  import opened Listings
  import opened BenchRecords
  import opened BenchOrders
  import opened BenchCounterbalance
  import opened BenchPlan

  // ---------------------------------------------------------------- pair identifiers

  function Pow10(n: nat): (r: nat)
    ensures r > 0
  {
    if n == 0 then 1 else 10 * Pow10(n - 1)
  }

  lemma {:induction false} DecimalLength(n: nat, width: nat)
    requires n < Pow10(width)
    ensures |Decimal(n, width)| == width && IdentifierBytes(Decimal(n, width))
  {
    if width > 0 {
      DecimalLength(n / 10, width - 1);
      var shorter := Decimal(n / 10, width - 1);
      assert Decimal(n, width) == shorter + [Digit(n)];
      assert Decimal(n, width)[..width - 1] == shorter;
    }
  }

  lemma {:induction false} DecimalInjective(m: nat, n: nat, width: nat)
    requires m < Pow10(width) && n < Pow10(width) && Decimal(m, width) == Decimal(n, width)
    ensures m == n
  {
    if width > 0 {
      DecimalLength(m / 10, width - 1);
      DecimalLength(n / 10, width - 1);
      var a, b := Decimal(m, width), Decimal(n, width);
      assert a[..width - 1] == Decimal(m / 10, width - 1);
      assert b[..width - 1] == Decimal(n / 10, width - 1);
      assert a[width - 1] == Digit(m) && b[width - 1] == Digit(n);
      DecimalInjective(m / 10, n / 10, width - 1);
    }
  }

  lemma FiveDigits()
    ensures Pow10(5) == MAX_REPLICATES
  {
  }

  /** Within the replicate bound, a pair identifier names one dataset and one sample. */
  lemma {:induction false} PairIdInjective(a: Id, m: nat, b: Id, n: nat)
    requires m < MAX_REPLICATES && n < MAX_REPLICATES && PairId(a, m) == PairId(b, n)
    ensures a == b && m == n
  {
    FiveDigits();
    DecimalLength(m, 5);
    DecimalLength(n, 5);
    assert |a| == |b|;
    assert a == PairId(a, m)[..|a|] == PairId(b, n)[..|b|] == b;
    assert Decimal(m, 5) == PairId(a, m)[|a| + 1..] == PairId(b, n)[|b| + 1..] == Decimal(n, 5);
    DecimalInjective(m, n, 5);
  }

  lemma {:induction false} IdentifierConcat(a: Id, b: Id)
    ensures IdentifierBytes(a + b) <==> IdentifierBytes(a) && IdentifierBytes(b)
  {
    if b == [] {
      assert a + b == a;
    } else {
      IdentifierConcat(a, b[..|b| - 1]);
      assert (a + b)[..|a + b| - 1] == a + b[..|b| - 1];
    }
  }

  /** The six added characters are what can push a pair identifier over the limit. */
  lemma {:induction false} PairIdIsIdentifier(id: Id, sample: nat)
    requires IsIdentifier(id) && sample < MAX_REPLICATES
    ensures IsIdentifier(PairId(id, sample)) <==> |id| <= 122
  {
    FiveDigits();
    DecimalLength(sample, 5);
    IdentifierConcat(id, [0x3A]);
    assert [0x3A as Byte][..0] == [];
    assert IdentifierBytes([0x3A as Byte]);
    IdentifierConcat(id + [0x3A], Decimal(sample, 5));
  }

  // ---------------------------------------------------------------- identities

  datatype Identity = Identity(dataset: Id, sample: int, treatment: Treatment)

  function IdentityOf(): (r: Assignment -> Identity) {
    (a: Assignment) => Identity(a.common.dataset, a.common.sample, a.treatment)
  }

  function Both(id: Id, sample: nat): (r: seq<Identity>) {
    [Identity(id, sample, Baseline), Identity(id, sample, Cigar)]
  }

  function SampleIdentities(id: Id, n: nat): (r: seq<Identity>) {
    if n == 0 then [] else SampleIdentities(id, n - 1) + Both(id, n - 1)
  }

  function Identities(ds: seq<Dataset>, n: nat): (r: seq<Identity>) {
    if ds == [] then [] else Identities(ds[..|ds| - 1], n) + SampleIdentities(ds[|ds| - 1].id, n)
  }

  predicate Expected(ds: seq<Dataset>, n: nat, x: Identity) {
    x.dataset in Map(IdOf(), ds) && 0 <= x.sample < n
  }

  lemma {:induction false} SampleIdentitiesMember(id: Id, n: nat, x: Identity)
    ensures x in SampleIdentities(id, n) <==> x.dataset == id && 0 <= x.sample < n
  {
    if n > 0 {
      SampleIdentitiesMember(id, n - 1, x);
      var both := Both(id, n - 1);
      if x.dataset == id && x.sample == n - 1 {
        match x.treatment {
          case Baseline => assert x == both[0];
          case Cigar => assert x == both[1];
        }
      }
    }
  }

  lemma {:induction false} IdentitiesMember(ds: seq<Dataset>, n: nat, x: Identity)
    ensures x in Identities(ds, n) <==> Expected(ds, n, x)
  {
    if ds != [] {
      var before, d := ds[..|ds| - 1], ds[|ds| - 1];
      IdentitiesMember(before, n, x);
      SampleIdentitiesMember(d.id, n, x);
      assert ds == before + [d];
      MapConcat(IdOf(), before, [d]);
    }
  }

  lemma {:induction false} SampleIdentitiesNoRepeats(id: Id, n: nat)
    ensures NoRepeats(SampleIdentities(id, n))
  {
    if n > 0 {
      SampleIdentitiesNoRepeats(id, n - 1);
      var both := Both(id, n - 1);
      assert both[1..] == [Identity(id, n - 1, Cigar)];
      assert NoRepeats(both[1..]) && NoRepeats(both);
      forall x | x in SampleIdentities(id, n - 1) ensures x !in both {
        SampleIdentitiesMember(id, n - 1, x);
      }
      ConcatNoRepeats(SampleIdentities(id, n - 1), both);
    }
  }

  lemma {:induction false} IdentitiesNoRepeats(ds: seq<Dataset>, n: nat)
    requires DistinctIds(ds)
    ensures NoRepeats(Identities(ds, n))
  {
    if ds != [] {
      var before, d := ds[..|ds| - 1], ds[|ds| - 1];
      assert ds == before + [d];
      MapConcat(IdOf(), before, [d]);
      NoRepeatsPrefix(Map(IdOf(), before), Map(IdOf(), [d]));
      assert Map(IdOf(), [d])[0] == d.id;
      IdentitiesNoRepeats(before, n);
      SampleIdentitiesNoRepeats(d.id, n);
      forall x | x in Identities(before, n) ensures x !in SampleIdentities(d.id, n) {
        IdentitiesMember(before, n, x);
        SampleIdentitiesMember(d.id, n, x);
      }
      ConcatNoRepeats(Identities(before, n), SampleIdentities(d.id, n));
    }
  }

  lemma {:induction false} SamplesIdentities(setup: Setup, d: Dataset, n: nat, orders: map<Slot, int>)
    ensures Map(IdentityOf(), SamplesFor(setup, d, n, orders)) == SampleIdentities(d.id, n)
  {
    if n > 0 {
      SamplesIdentities(setup, d, n - 1, orders);
      var pair := PairFor(setup, d, n - 1, orders);
      MapConcat(IdentityOf(), SamplesFor(setup, d, n - 1, orders), pair);
      MapAt(IdentityOf(), pair, 0);
      MapAt(IdentityOf(), pair, 1);
      assert Map(IdentityOf(), pair) == Both(d.id, n - 1);
    }
  }

  lemma {:induction false} AssignmentsIdentities(setup: Setup, ds: seq<Dataset>, n: nat, orders: map<Slot, int>)
    ensures Map(IdentityOf(), AssignmentsFor(setup, ds, n, orders)) == Identities(ds, n)
  {
    if ds != [] {
      var before, d := ds[..|ds| - 1], ds[|ds| - 1];
      AssignmentsIdentities(setup, before, n, orders);
      SamplesIdentities(setup, d, n, orders);
      MapConcat(IdentityOf(), AssignmentsFor(setup, before, n, orders), SamplesFor(setup, d, n, orders));
    }
  }

  // ---------------------------------------------------------------- entries

  /** An assignment is one of the two of a pair that the manifest and the seed determine. */
  ghost predicate Belongs(setup: Setup, ds: seq<Dataset>, n: nat, orders: map<Slot, int>, a: Assignment) {
    exists d: Dataset, i: nat :: d in ds && i < n && a in PairFor(setup, d, i, orders)
  }

  lemma {:induction false} SamplesForMember(setup: Setup, d: Dataset, n: nat, orders: map<Slot, int>, a: Assignment)
    ensures a in SamplesFor(setup, d, n, orders) <==> exists i: nat :: i < n && a in PairFor(setup, d, i, orders)
  {
    if n > 0 {
      SamplesForMember(setup, d, n - 1, orders, a);
    }
  }

  lemma {:induction false} AssignmentsForMember(setup: Setup, ds: seq<Dataset>, n: nat, orders: map<Slot, int>, a: Assignment)
    ensures a in AssignmentsFor(setup, ds, n, orders) <==> Belongs(setup, ds, n, orders, a)
  {
    if ds != [] {
      var before, d := ds[..|ds| - 1], ds[|ds| - 1];
      assert ds == before + [d];
      AssignmentsForMember(setup, before, n, orders, a);
      SamplesForMember(setup, d, n, orders, a);
    }
  }

  lemma {:induction false} MultisetMember<T>(a: seq<T>, b: seq<T>, x: T)
    requires multiset(a) == multiset(b)
    ensures x in a <==> x in b
  {
    assert x in a <==> x in multiset(a);
    assert x in b <==> x in multiset(b);
  }

  /** The assignments of a produced plan, whatever order they are listed in. */
  ghost predicate Produced(setup: Setup, ds: seq<Dataset>, n: nat, orders: map<Slot, int>, xs: seq<Assignment>) {
    && (forall a :: a in xs <==> Belongs(setup, ds, n, orders, a))
    && NoRepeats(Map(IdentityOf(), xs))
    && (forall x :: x in Map(IdentityOf(), xs) <==> Expected(ds, n, x))
    && |xs| == |Identities(ds, n)|
  }

  lemma {:induction false} SortedIds(ds: seq<Dataset>)
    requires DistinctIds(ds)
    ensures DistinctIds(SortDatasets(ds))
    ensures forall x :: x in Map(IdOf(), SortDatasets(ds)) <==> x in Map(IdOf(), ds)
    ensures forall d :: d in SortDatasets(ds) <==> d in ds
  {
    SortByMultiset(ById(), ds);
    MapPermutation(IdOf(), SortDatasets(ds), ds);
    PermutationNoRepeats(Map(IdOf(), ds), Map(IdOf(), SortDatasets(ds)));
    forall x ensures x in Map(IdOf(), SortDatasets(ds)) <==> x in Map(IdOf(), ds) {
      MultisetMember(Map(IdOf(), SortDatasets(ds)), Map(IdOf(), ds), x);
    }
    forall d ensures d in SortDatasets(ds) <==> d in ds {
      MultisetMember(SortDatasets(ds), ds, d);
    }
  }

  /** Sorting the datasets and then the assignments keeps every assignment once. */
  lemma {:induction false} PlanIsProduced(setup: Setup, ds: seq<Dataset>, n: nat, orders: map<Slot, int>)
    requires DistinctIds(ds)
    ensures Produced(setup, ds, n, orders, AssignmentsOf(setup, ds, n, orders))
  {
    var sorted := SortDatasets(ds);
    var made := AssignmentsFor(setup, sorted, n, orders);
    var xs := SortAssignments(made);
    SortedIds(ds);
    SortByMultiset(InPlanOrder(), made);
    MapPermutation(IdentityOf(), made, xs);
    AssignmentsIdentities(setup, sorted, n, orders);
    IdentitiesNoRepeats(sorted, n);
    PermutationNoRepeats(Map(IdentityOf(), made), Map(IdentityOf(), xs));
    forall a ensures a in xs <==> Belongs(setup, ds, n, orders, a) {
      MultisetMember(xs, made, a);
      AssignmentsForMember(setup, sorted, n, orders, a);
    }
    forall x ensures x in Map(IdentityOf(), xs) <==> Expected(ds, n, x) {
      MultisetMember(Map(IdentityOf(), xs), Map(IdentityOf(), made), x);
      IdentitiesMember(sorted, n, x);
    }
    ProducedCount(ds, n);
    ProducedCount(sorted, n);
    assert |xs| == |multiset(xs)| == |multiset(made)| == |made|;
    assert |sorted| == |multiset(sorted)| == |multiset(ds)| == |ds| by { SortByMultiset(ById(), ds); }
  }

  lemma {:induction false} ProducedCount(ds: seq<Dataset>, n: nat)
    ensures |Identities(ds, n)| == |ds| * n * 2
  {
    if ds != [] {
      ProducedCount(ds[..|ds| - 1], n);
      SampleCount(ds[|ds| - 1].id, n);
      assert |ds| * n == (|ds| - 1) * n + n;
    }
  }

  lemma {:induction false} SampleCount(id: Id, n: nat)
    ensures |SampleIdentities(id, n)| == n * 2
  {
    if n > 0 {
      SampleCount(id, n - 1);
    }
  }

  // ---------------------------------------------------------------- when a produced plan validates

  /** A coarser repetition-free image follows from a finer one that it determines. */
  lemma {:induction false} CoarserNoRepeats<T, U, V>(f: T -> U, g: T -> V, xs: seq<T>)
    requires NoRepeats(Map(f, xs))
    requires forall x, y :: x in xs && y in xs && g(x) == g(y) ==> f(x) == f(y)
    ensures NoRepeats(Map(g, xs))
  {
    if xs != [] {
      assert Map(f, xs)[1..] == Map(f, xs[1..]);
      CoarserNoRepeats(f, g, xs[1..]);
      if g(xs[0]) in Map(g, xs[1..]) {
        MapMember(g, xs[1..], g(xs[0]));
        var y :| y in xs[1..] && g(y) == g(xs[0]);
        MapMember(f, xs[1..], f(xs[0]));
      }
    }
  }

  lemma {:induction false} KeysDistinct(setup: Setup, ds: seq<Dataset>, n: nat, orders: map<Slot, int>, xs: seq<Assignment>)
    requires Produced(setup, ds, n, orders, xs) && n <= MAX_REPLICATES
    ensures NoRepeats(Map(KeyOf(), xs))
  {
    forall a, b | a in xs && b in xs && KeyOf()(a) == KeyOf()(b) ensures IdentityOf()(a) == IdentityOf()(b) {
      assert Belongs(setup, ds, n, orders, a) && Belongs(setup, ds, n, orders, b);
      PairIdInjective(a.common.dataset, a.common.sample, b.common.dataset, b.common.sample);
    }
    CoarserNoRepeats(IdentityOf(), KeyOf(), xs);
  }

  lemma {:induction false} PartnersProduced(setup: Setup, ds: seq<Dataset>, n: nat, orders: map<Slot, int>, xs: seq<Assignment>, a: Assignment)
    requires Produced(setup, ds, n, orders, xs) && a in xs
    ensures HasPartner(xs, a)
  {
    assert Belongs(setup, ds, n, orders, a);
    var d: Dataset, i: nat :| d in ds && i < n && a in PairFor(setup, d, i, orders);
    var pair := PairFor(setup, d, i, orders);
    var b := if a == pair[0] then pair[1] else pair[0];
    assert b in pair && Belongs(setup, ds, n, orders, b);
    assert Partners(a, b);
  }

  lemma {:induction false} EntriesValid(shuffle: Shuffle, hash: Hash, setup: Setup, ds: seq<Dataset>, n: nat, seed: Seed, a: Assignment)
    requires Plannable(hash, setup, ds, n, seed) && Belongs(setup, ds, n, Orders(shuffle, ds, n, seed), a)
    ensures ValidEntry(a) <==> |a.common.dataset| <= 122
  {
    var orders := Orders(shuffle, ds, n, seed);
    var d: Dataset, i: nat :| d in ds && i < n && a in PairFor(setup, d, i, orders);
    assert ValidDataset(d);
    OrdersDefined(shuffle, ds, n, seed, d, i);
    EntryValid(setup, d, i, orders, a);
  }

  lemma {:induction false} EntryValid(setup: Setup, d: Dataset, i: nat, orders: map<Slot, int>, a: Assignment)
    requires ValidDataset(d) && i < MAX_REPLICATES && a in PairFor(setup, d, i, orders)
    requires IsIdentifier(setup.run) && IsIdentifier(setup.baseline) && ValidPins(setup.pins)
    requires OrderAt(orders, Slot(d.id, i)) == 1 || OrderAt(orders, Slot(d.id, i)) == 2
    ensures ValidEntry(a) <==> |a.common.dataset| <= 122
  {
    PairIdIsIdentifier(d.id, i);
  }

  lemma {:induction false} AllPartneredProduced(setup: Setup, ds: seq<Dataset>, n: nat, orders: map<Slot, int>, xs: seq<Assignment>)
    requires Produced(setup, ds, n, orders, xs)
    ensures AllPartnered(xs)
  {
    forall a | a in xs ensures HasPartner(xs, a) {
      PartnersProduced(setup, ds, n, orders, xs, a);
    }
  }

  /** Every dataset identifier leaves room for the six characters that make it a pair identifier. */
  predicate ShortIds(ds: seq<Dataset>) {
    forall d :: d in ds ==> |d.id| <= 122
  }

  /**
    A produced plan passes validation exactly when every dataset identifier has at most 122
    characters; `make_plan` itself does not check this.
    */
  lemma {:induction false} PlannedIsValid(shuffle: Shuffle, hash: Hash, setup: Setup, ds: seq<Dataset>, n: nat, seed: Seed)
    requires Plannable(hash, setup, ds, n, seed)
    ensures ValidPlan(hash, PlanFor(shuffle, hash, setup, ds, n, seed)) <==> ShortIds(ds)
  {
    var orders := Orders(shuffle, ds, n, seed);
    var xs := AssignmentsOf(setup, ds, n, orders);
    PlanIsProduced(setup, ds, n, orders);
    PlannedCount(setup, ds, n, orders, xs);
    KeysDistinct(setup, ds, n, orders, xs);
    PlannedEntries(shuffle, hash, setup, ds, n, seed, xs);
    AllPartneredProduced(setup, ds, n, orders, xs);
  }

  lemma {:induction false} PlannedCount(setup: Setup, ds: seq<Dataset>, n: nat, orders: map<Slot, int>, xs: seq<Assignment>)
    requires Produced(setup, ds, n, orders, xs) && ds != [] && n > 0 && |ds| * n * 2 <= MAX_ASSIGNMENTS
    ensures 0 < |xs| <= MAX_ASSIGNMENTS
  {
    ProducedCount(ds, n);
    assert |ds| * n >= 1 * n;
  }

  lemma {:induction false} PlannedEntries(shuffle: Shuffle, hash: Hash, setup: Setup, ds: seq<Dataset>, n: nat, seed: Seed, xs: seq<Assignment>)
    requires Plannable(hash, setup, ds, n, seed) && Produced(setup, ds, n, Orders(shuffle, ds, n, seed), xs)
    ensures AllValid(xs) <==> ShortIds(ds)
  {
    if ShortIds(ds) {
      forall a | a in xs ensures ValidEntry(a) {
        var d := DatasetOf(setup, ds, n, Orders(shuffle, ds, n, seed), a);
        EntriesValid(shuffle, hash, setup, ds, n, seed, a);
      }
    }
    if AllValid(xs) {
      forall d | d in ds ensures |d.id| <= 122 {
        var a := EntryOf(setup, ds, n, Orders(shuffle, ds, n, seed), d);
        EntriesValid(shuffle, hash, setup, ds, n, seed, a);
      }
    }
  }

  lemma {:induction false} DatasetOf(setup: Setup, ds: seq<Dataset>, n: nat, orders: map<Slot, int>, a: Assignment) returns (d: Dataset)
    requires Belongs(setup, ds, n, orders, a)
    ensures d in ds && d.id == a.common.dataset
  {
    var e: Dataset, i: nat :| e in ds && i < n && a in PairFor(setup, e, i, orders);
    d := e;
  }

  lemma {:induction false} EntryOf(setup: Setup, ds: seq<Dataset>, n: nat, orders: map<Slot, int>, d: Dataset) returns (a: Assignment)
    requires d in ds && n > 0
    ensures Belongs(setup, ds, n, orders, a) && a.common.dataset == d.id
  {
    a := PairFor(setup, d, 0, orders)[0];
    assert a in PairFor(setup, d, 0, orders);
  }
}

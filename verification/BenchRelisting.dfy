/**
  Listing the entries of a dataset manifest in another order. The orders and the assignments of a plan stay as they are,
  but the plan is bound to the manifest as it is listed, and so is the environment capture that every assignment names.
  */
module BenchRelisting {
  import opened Sequences
  import opened Listings
  import opened BenchRecords
  import opened BenchOrders
  import opened BenchCounterbalance
  import opened BenchPlan
  import opened BenchSizes

  /** The same choices under another environment capture. */
  function Recaptured(setup: Setup, environment: Environment): (r: Setup) {
    setup.(files := setup.files.(environment := environment))
  }

  /** The same assignment under another environment digest. */
  function Within(environment: Digest): (r: Assignment -> Assignment) {
    (a: Assignment) => a.(common := a.common.(environment := environment))
  }

  // ---------------------------------------------------------------- sorting does not see the environment

  ghost predicate KeepsOrder<T(!new)>(less: (T, T) -> bool, f: T -> T) {
    forall x, y :: less(f(x), f(y)) == less(x, y)
  }

  lemma {:induction false} InsertByKept<T(!new)>(less: (T, T) -> bool, f: T -> T, x: T, xs: seq<T>)
    requires KeepsOrder(less, f)
    ensures Map(f, InsertBy(less, x, xs)) == InsertBy(less, f(x), Map(f, xs))
  {
    if xs != [] {
      assert Map(f, xs)[1..] == Map(f, xs[1..]);
      InsertByKept(less, f, x, xs[1..]);
      MapConcat(f, [x], xs);
      MapConcat(f, [xs[0]], InsertBy(less, x, xs[1..]));
    }
  }

  lemma {:induction false} SortByKept<T(!new)>(less: (T, T) -> bool, f: T -> T, xs: seq<T>)
    requires KeepsOrder(less, f)
    ensures Map(f, SortBy(less, xs)) == SortBy(less, Map(f, xs))
  {
    if xs != [] {
      assert Map(f, xs)[1..] == Map(f, xs[1..]);
      SortByKept(less, f, xs[1..]);
      InsertByKept(less, f, xs[0], SortBy(less, xs[1..]));
    }
  }

  // ---------------------------------------------------------------- assignments under another capture

  lemma {:induction false} PairRecaptured(setup: Setup, environment: Environment, d: Dataset, sample: nat, orders: map<Slot, int>)
    ensures PairFor(Recaptured(setup, environment), d, sample, orders) == Map(Within(environment.digest), PairFor(setup, d, sample, orders))
  {
    var f, pair := Within(environment.digest), PairFor(setup, d, sample, orders);
    MapAt(f, pair, 0);
    MapAt(f, pair, 1);
  }

  lemma {:induction false} SamplesRecaptured(setup: Setup, environment: Environment, d: Dataset, n: nat, orders: map<Slot, int>)
    ensures SamplesFor(Recaptured(setup, environment), d, n, orders) == Map(Within(environment.digest), SamplesFor(setup, d, n, orders))
  {
    if n > 0 {
      SamplesRecaptured(setup, environment, d, n - 1, orders);
      PairRecaptured(setup, environment, d, n - 1, orders);
      MapConcat(Within(environment.digest), SamplesFor(setup, d, n - 1, orders), PairFor(setup, d, n - 1, orders));
    }
  }

  lemma {:induction false} AssignmentsRecaptured(setup: Setup, environment: Environment, ds: seq<Dataset>, n: nat, orders: map<Slot, int>)
    ensures AssignmentsFor(Recaptured(setup, environment), ds, n, orders)
            == Map(Within(environment.digest), AssignmentsFor(setup, ds, n, orders))
  {
    if ds != [] {
      var before, last := ds[..|ds| - 1], ds[|ds| - 1];
      AssignmentsRecaptured(setup, environment, before, n, orders);
      SamplesRecaptured(setup, environment, last, n, orders);
      MapConcat(Within(environment.digest), AssignmentsFor(setup, before, n, orders), SamplesFor(setup, last, n, orders));
    }
  }

  /**
    However the manifest is listed and whatever was captured, the assignments agree in everything but the environment
    digest, and they come in the same order.
    */
  lemma {:induction false} RelistedAssignments(
    shuffle: Shuffle, setup: Setup, environment: Environment, ds: seq<Dataset>, es: seq<Dataset>, n: nat, seed: Seed)
    requires DistinctIds(ds) && multiset(ds) == multiset(es)
    ensures AssignmentsOf(Recaptured(setup, environment), es, n, Orders(shuffle, es, n, seed))
            == Map(Within(environment.digest), AssignmentsOf(setup, ds, n, Orders(shuffle, ds, n, seed)))
  {
    var orders := Orders(shuffle, ds, n, seed);
    SortedDatasetsForgetListing(ds, es);
    OrdersForgetListing(shuffle, ds, es, n, seed);
    AssignmentsRecaptured(setup, environment, SortDatasets(ds), n, orders);
    SortByKept(InPlanOrder(), Within(environment.digest), AssignmentsFor(setup, SortDatasets(ds), n, orders));
  }

  // ---------------------------------------------------------------- plans under another capture

  lemma {:induction false} WithinSame(environment: Digest, xs: seq<Assignment>)
    requires forall a :: a in xs ==> a.common.environment == environment
    ensures Map(Within(environment), xs) == xs
  {
    forall i | 0 <= i < |xs| ensures Map(Within(environment), xs)[i] == xs[i] {
      MapAt(Within(environment), xs, i);
      assert xs[i] in xs;
    }
  }

  lemma {:induction false} SamplesNameCapture(setup: Setup, d: Dataset, n: nat, orders: map<Slot, int>, a: Assignment)
    requires a in SamplesFor(setup, d, n, orders)
    ensures a.common.environment == setup.files.environment.digest
  {
    if a in SamplesFor(setup, d, n - 1, orders) {
      SamplesNameCapture(setup, d, n - 1, orders, a);
    }
  }

  lemma {:induction false} AssignmentsNameCapture(setup: Setup, ds: seq<Dataset>, n: nat, orders: map<Slot, int>, a: Assignment)
    requires a in AssignmentsFor(setup, ds, n, orders)
    ensures a.common.environment == setup.files.environment.digest
  {
    if a in AssignmentsFor(setup, ds[..|ds| - 1], n, orders) {
      AssignmentsNameCapture(setup, ds[..|ds| - 1], n, orders, a);
    } else {
      SamplesNameCapture(setup, ds[|ds| - 1], n, orders, a);
    }
  }

  /**
    Two listings of the same datasets give the same plan if and only if their digests agree and the captures have the
    same digest: a plan remembers how its manifest was listed.
    */
  lemma {:induction false} RelistedPlan(
    shuffle: Shuffle, hash: Hash, setup: Setup, environment: Environment, ds: seq<Dataset>, es: seq<Dataset>, n: nat, seed: Seed)
    requires DistinctIds(ds) && multiset(ds) == multiset(es) && ds != [] && n > 0
    ensures PlanFor(shuffle, hash, Recaptured(setup, environment), es, n, seed) == PlanFor(shuffle, hash, setup, ds, n, seed) <==>
            hash.manifest(es) == hash.manifest(ds) && environment.digest == setup.files.environment.digest
  {
    var orders := Orders(shuffle, ds, n, seed);
    var xs := AssignmentsOf(setup, ds, n, orders);
    RelistedAssignments(shuffle, setup, environment, ds, es, n, seed);
    SomethingPlanned(setup, ds, n, orders);
    forall a | a in xs ensures a.common.environment == setup.files.environment.digest {
      SortByMember(InPlanOrder(), AssignmentsFor(setup, SortDatasets(ds), n, orders), a);
      AssignmentsNameCapture(setup, SortDatasets(ds), n, orders, a);
    }
    assert xs[0] in xs;
    MapAt(Within(environment.digest), xs, 0);
    if environment.digest == setup.files.environment.digest {
      WithinSame(environment.digest, xs);
    }
  }

  // ---------------------------------------------------------------- what another listing needs

  lemma {:induction false} RelistedIsValid(required: Inventory, ds: seq<Dataset>, es: seq<Dataset>)
    requires multiset(ds) == multiset(es) && ValidManifest(required, ds)
    ensures ValidManifest(required, es)
  {
    assert |ds| == |multiset(ds)| == |multiset(es)| == |es|;
    MapPermutation(IdOf(), ds, es);
    PermutationNoRepeats(Map(IdOf(), ds), Map(IdOf(), es));
    MapPermutation(TaskOf(), ds, es);
    PermutationNoRepeats(Map(TaskOf(), ds), Map(TaskOf(), es));
    forall d | d in es ensures ValidDataset(d) {
      assert d in multiset(es) && d in ds;
    }
    forall s ensures s in Strata(ds) <==> s in Strata(es) {
      StratumForgetsListing(ds, es, s);
    }
  }

  /**
    Under a given capture another listing of a plannable manifest is plannable if and only if that capture was taken for
    it. In particular, with the environment file left as it is, the listing is refused unless its digest is the same.
    */
  lemma {:induction false} RelistedIsPlannable(
    hash: Hash, setup: Setup, environment: Environment, ds: seq<Dataset>, es: seq<Dataset>, n: int, seed: Seed)
    requires Plannable(hash, setup, ds, n, seed) && multiset(ds) == multiset(es)
    ensures Plannable(hash, Recaptured(setup, environment), es, n, seed) <==> Captured(hash, environment, es)
    ensures Plannable(hash, setup, es, n, seed) <==> hash.manifest(es) == hash.manifest(ds)
  {
    RelistedIsValid(setup.required, ds, es);
    assert |ds| == |multiset(ds)| == |multiset(es)| == |es|;
  }
}

/** Reproducing a plan's treatment orders from the revealed seed. */
module BenchSeeding {
  import opened Wrappers
  import opened Sequences
  import opened Listings
  import opened BenchRecords
  import opened BenchOrders
  import opened BenchCounterbalance
  import opened BenchPlan
  import opened BenchPlanning

  predicate Reproduces(orders: map<Slot, int>, a: Assignment) {
    && a.common.sample >= 0
    && var slot := Slot(a.common.dataset, a.common.sample);
    && slot in orders
    && a.common.pair == PairId(a.common.dataset, a.common.sample)
    && a.order == if a.treatment == Baseline then orders[slot] else 3 - orders[slot]
  }

  /** The assignments are both treatments of every replicate, once each, in the seeded orders. */
  ghost predicate Seeded(shuffle: Shuffle, xs: seq<Assignment>, ds: seq<Dataset>, seed: Seed, n: nat) {
    && ds != [] && 0 < n <= MAX_REPLICATES
    && NoRepeats(Map(IdentityOf(), xs))
    && (forall x :: x in Map(IdentityOf(), xs) <==> Expected(ds, n, x))
    && (forall a :: a in xs ==> Reproduces(Orders(shuffle, ds, n, seed), a))
  }

  /** A produced plan reproduces from its own seed. */
  lemma {:induction false} PlannedIsSeeded(shuffle: Shuffle, hash: Hash, setup: Setup, ds: seq<Dataset>, n: nat, seed: Seed)
    requires Plannable(hash, setup, ds, n, seed)
    ensures Seeded(shuffle, PlanFor(shuffle, hash, setup, ds, n, seed).unsigned.assignments, ds, seed, n)
  {
    var orders := Orders(shuffle, ds, n, seed);
    var xs := AssignmentsOf(setup, ds, n, orders);
    PlanIsProduced(setup, ds, n, orders);
    forall a | a in xs ensures Reproduces(orders, a) {
      EntryReproduces(shuffle, setup, ds, n, seed, a);
    }
  }

  lemma {:induction false} EntryReproduces(shuffle: Shuffle, setup: Setup, ds: seq<Dataset>, n: nat, seed: Seed, a: Assignment)
    requires DistinctIds(ds) && Belongs(setup, ds, n, Orders(shuffle, ds, n, seed), a)
    ensures Reproduces(Orders(shuffle, ds, n, seed), a)
  {
    var d: Dataset, i: nat :| d in ds && i < n && a in PairFor(setup, d, i, Orders(shuffle, ds, n, seed));
    OrdersDefined(shuffle, ds, n, seed, d, i);
  }

  // ---------------------------------------------------------------- counting baselines

  function BaselineSamples(xs: seq<Assignment>, id: Id): (r: seq<int>) {
    if xs == [] then [] else
      var a := xs[|xs| - 1];
      BaselineSamples(xs[..|xs| - 1], id) + if a.treatment == Baseline && a.common.dataset == id then [a.common.sample] else []
  }

  lemma {:induction false} RangeFacts(n: nat)
    ensures |Range(n)| == n && NoRepeats<int>(Range(n)) && forall x :: x in Range(n) <==> 0 <= x < n
  {
    if n > 0 {
      RangeFacts(n - 1);
      assert NoRepeats<int>([n - 1]);
      ConcatNoRepeats<int>(Range(n - 1), [n - 1]);
    }
  }

  lemma {:induction false} BaselineSamplesMember(xs: seq<Assignment>, id: Id, sample: int)
    ensures sample in BaselineSamples(xs, id) <==> Identity(id, sample, Baseline) in Map(IdentityOf(), xs)
  {
    if xs != [] {
      var before, a := xs[..|xs| - 1], xs[|xs| - 1];
      BaselineSamplesMember(before, id, sample);
      assert xs == before + [a];
      MapConcat(IdentityOf(), before, [a]);
      assert Map(IdentityOf(), [a]) == [IdentityOf()(a)];
    }
  }

  lemma {:induction false} BaselineSamplesNoRepeats(xs: seq<Assignment>, id: Id)
    requires NoRepeats(Map(IdentityOf(), xs))
    ensures NoRepeats(BaselineSamples(xs, id))
  {
    if xs != [] {
      var before, a := xs[..|xs| - 1], xs[|xs| - 1];
      assert xs == before + [a];
      MapConcat(IdentityOf(), before, [a]);
      assert Map(IdentityOf(), [a]) == [IdentityOf()(a)];
      NoRepeatsPrefix(Map(IdentityOf(), before), [IdentityOf()(a)]);
      BaselineSamplesNoRepeats(before, id);
      if a.treatment == Baseline && a.common.dataset == id {
        BaselineSamplesMember(before, id, a.common.sample);
        assert NoRepeats([a.common.sample]);
        ConcatNoRepeats(BaselineSamples(before, id), [a.common.sample]);
      } else {
        assert BaselineSamples(xs, id) == BaselineSamples(before, id);
      }
    }
  }

  /** In a seeded plan every dataset has one baseline per replicate. */
  lemma {:induction false} BaselinesPerDataset(xs: seq<Assignment>, ds: seq<Dataset>, n: nat, d: Dataset)
    requires d in ds && NoRepeats(Map(IdentityOf(), xs))
    requires forall x :: x in Map(IdentityOf(), xs) <==> Expected(ds, n, x)
    ensures |BaselineSamples(xs, d.id)| == n
  {
    var samples := BaselineSamples(xs, d.id);
    BaselineSamplesNoRepeats(xs, d.id);
    RangeFacts(n);
    MapMember(IdOf(), ds, d.id);
    assert IdOf()(d) == d.id;
    forall x ensures x in samples <==> x in Range(n) {
      BaselineSamplesMember(xs, d.id, x);
      assert Expected(ds, n, Identity(d.id, x, Baseline)) <==> 0 <= x < n;
    }
    SameElements<int>(samples, Range(n));
    assert |samples| == |multiset(samples)| == |multiset(Range(n))| == n;
  }

  // ---------------------------------------------------------------- the check

  /** Lengths of a dictionary of lists that starts every key at the empty list. */
  function LengthAt(counts: map<Id, nat>, id: Id): (r: nat) {
    if id in counts then counts[id] else 0
  }

  /** One pass over the plan: identities must be new, baselines are counted by dataset. */
  method Observe(xs: seq<Assignment>) returns (observed: seq<Identity>, counts: map<Id, nat>, ok: bool)
    ensures ok <==> NoRepeats(Map(IdentityOf(), xs))
    ensures ok ==> observed == Map(IdentityOf(), xs)
    ensures ok ==> forall id :: LengthAt(counts, id) == |BaselineSamples(xs, id)|
  {
    observed, counts := [], map[];
    for i := 0 to |xs|
      invariant observed == Map(IdentityOf(), xs[..i]) && NoRepeats(observed)
      invariant forall id :: LengthAt(counts, id) == |BaselineSamples(xs[..i], id)|
    {
      SeenImage(IdentityOf(), xs, i);
      assert xs[..i + 1][..i] == xs[..i];
      if IdentityOf()(xs[i]) in observed {
        return observed, counts, false;
      }
      observed := observed + [IdentityOf()(xs[i])];
      if xs[i].treatment == Baseline {
        var id := xs[i].common.dataset;
        counts := counts[id := LengthAt(counts, id) + 1];
      }
    }
    assert xs[..|xs|] == xs;
    ok := true;
  }

  predicate Uniform(ds: seq<Dataset>, counts: map<Id, nat>, n: nat) {
    ds != [] && n > 0 && forall d :: d in ds ==> LengthAt(counts, d.id) == n
  }

  lemma {:induction false} SeededIsUniform(shuffle: Shuffle, xs: seq<Assignment>, ds: seq<Dataset>, seed: Seed, n: nat, counts: map<Id, nat>)
    requires Seeded(shuffle, xs, ds, seed, n)
    requires forall id :: LengthAt(counts, id) == |BaselineSamples(xs, id)|
    ensures Uniform(ds, counts, n)
    ensures forall m :: Uniform(ds, counts, m) ==> m == n
  {
    forall d | d in ds ensures LengthAt(counts, d.id) == n {
      BaselinesPerDataset(xs, ds, n, d);
    }
    assert ds[0] in ds;
  }

  /** One balanced, positive replicate count for every dataset, or none. */
  method Replicates(ds: seq<Dataset>, counts: map<Id, nat>) returns (r: Option<nat>)
    ensures r.Some? ==> Uniform(ds, counts, r.value)
    ensures r.None? ==> forall n :: !Uniform(ds, counts, n)
  {
    if ds == [] {
      return None;
    }
    var n := LengthAt(counts, ds[0].id);
    assert ds[0] in ds;
    if n == 0 {
      return None;
    }
    for i := 0 to |ds|
      invariant forall j :: 0 <= j < i ==> LengthAt(counts, ds[j].id) == n
    {
      if LengthAt(counts, ds[i].id) != n {
        assert ds[i] in ds;
        return None;
      }
    }
    r := Some(n);
  }

  method CheckOrders(orders: map<Slot, int>, xs: seq<Assignment>) returns (ok: bool)
    ensures ok <==> forall a :: a in xs ==> Reproduces(orders, a)
  {
    for i := 0 to |xs|
      invariant forall j :: 0 <= j < i ==> Reproduces(orders, xs[j])
    {
      if !Reproduces(orders, xs[i]) {
        assert xs[i] in xs;
        return false;
      }
    }
    ok := true;
  }

  method VerifySeededAssignments(shuffle: Shuffle, xs: seq<Assignment>, ds: seq<Dataset>, seed: Seed) returns (r: Option<nat>)
    ensures r.Some? ==> Seeded(shuffle, xs, ds, seed, r.value)
    ensures r.None? ==> forall n :: !Seeded(shuffle, xs, ds, seed, n)
  {
    var observed, counts, ok := Observe(xs);
    if !ok {
      return None;
    }
    var n := Replicates(ds, counts);
    OnlyThatCount(shuffle, xs, ds, seed, counts, n);
    if n.None? {
      return None;
    }
    ok := VerifyCount(shuffle, xs, observed, ds, seed, n.value);
    r := if ok then n else None;
  }

  /** The counted replicates are the only number under which the assignments can be seeded. */
  lemma {:induction false} OnlyThatCount(shuffle: Shuffle, xs: seq<Assignment>, ds: seq<Dataset>, seed: Seed, counts: map<Id, nat>, n: Option<nat>)
    requires forall id :: LengthAt(counts, id) == |BaselineSamples(xs, id)|
    requires n.Some? ==> Uniform(ds, counts, n.value)
    requires n.None? ==> forall m: nat :: !Uniform(ds, counts, m)
    ensures forall m: nat :: Seeded(shuffle, xs, ds, seed, m) ==> n == Some(m)
  {
    forall m: nat | Seeded(shuffle, xs, ds, seed, m) ensures n == Some(m) {
      SeededIsUniform(shuffle, xs, ds, seed, m, counts);
    }
  }

  method VerifyCount(shuffle: Shuffle, xs: seq<Assignment>, observed: seq<Identity>, ds: seq<Dataset>, seed: Seed, n: nat) returns (ok: bool)
    requires ds != [] && observed == Map(IdentityOf(), xs) && NoRepeats(observed)
    ensures ok <==> Seeded(shuffle, xs, ds, seed, n)
  {
    var orders := SeededBaselineOrders(shuffle, ds, n, seed);
    if orders.None? {
      return false;
    }
    var same := SameIdentities(observed, ds, n);
    var ordered := CheckOrders(orders.value, xs);
    ok := same && ordered;
  }

  /** Compare two sets of identities, one of them given by the inventory. */
  method SameIdentities(observed: seq<Identity>, ds: seq<Dataset>, n: nat) returns (ok: bool)
    ensures ok <==> forall x :: x in observed <==> Expected(ds, n, x)
  {
    var expected := Identities(ds, n);
    var seen, wanted := (set x | x in observed), (set x | x in expected);
    ok := seen == wanted;
    forall x ensures x in wanted <==> Expected(ds, n, x) {
      IdentitiesMember(ds, n, x);
    }
    if !ok {
      var x :| (x in seen) != (x in wanted);
      assert (x in observed) != Expected(ds, n, x);
    } else {
      assert forall x :: x in observed <==> x in seen;
    }
  }
}

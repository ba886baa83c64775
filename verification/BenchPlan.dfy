/** Committed benchmark plans: producing them and validating them. */
module BenchPlan {
  import opened Sequences
  import opened Listings
  import opened BenchRecords
  import opened BenchOrders
  import opened BenchCounterbalance

  function PairId(dataset: Id, sample: nat): (r: Id) { dataset + [0x3A] + Decimal(sample, 5) }

  // ---------------------------------------------------------------- making a plan

  /** The stratum inventory a manifest must match; the source's has nine members. */
  type Inventory = xs: seq<Id> | xs != [] && NoRepeats(xs) witness [[0x61]]

  /** The other files a plan is bound to, with the comparators the baseline manifest declares. */
  datatype Files = Files(baselines: Digest, canaries: Digest, environment: Environment, declared: set<Id>)

  /** What the caller of `make_plan` chooses. */
  datatype Setup = Setup(run: Id, baseline: Id, evidence: Evidence, pins: Pins, files: Files, required: Inventory)

  function TaskOf(): (r: Dataset -> (Id, Id)) { (d: Dataset) => (d.stratum, d.task) }

  predicate ValidDataset(d: Dataset) {
    IsIdentifier(d.id) && IsIdentifier(d.task) && IsIdentifier(d.stratum)
  }

  predicate ValidManifest(required: Inventory, ds: seq<Dataset>) {
    && |required| <= |ds| <= 10_000
    && DistinctIds(ds) && NoRepeats(Map(TaskOf(), ds))
    && (forall d :: d in ds ==> ValidDataset(d))
    && (set s | s in Strata(ds)) == (set s | s in required)
  }

  predicate ValidDeclared(declared: set<Id>) {
    forall x :: x in declared ==> IsIdentifier(x)
  }

  /** The capture's digest covers its fields, and it was taken for the manifest as it is listed. */
  predicate Captured(hash: Hash, environment: Environment, ds: seq<Dataset>) {
    && hash.environment(environment.datasets, environment.conditions) == environment.digest
    && environment.datasets == hash.manifest(ds)
  }

  /** A capture taken for a listing under some conditions of the host. */
  function CaptureOf(hash: Hash, ds: seq<Dataset>, conditions: nat): (r: Environment)
    ensures Captured(hash, r, ds)
  {
    Environment(hash.manifest(ds), conditions, hash.environment(hash.manifest(ds), conditions))
  }

  /** Everything `make_plan` demands before it assigns orders. */
  predicate Plannable(hash: Hash, setup: Setup, ds: seq<Dataset>, replicates: int, seed: Seed) {
    && ValidManifest(setup.required, ds) && ValidPins(setup.pins) && ValidDeclared(setup.files.declared)
    && ValidSecret(seed)
    && Captured(hash, setup.files.environment, ds)
    && setup.baseline in setup.files.declared
    && |ds| * replicates * 2 <= MAX_ASSIGNMENTS
    && IsIdentifier(setup.run)
    && 0 < replicates <= MAX_REPLICATES
  }

  function CommonFor(setup: Setup, d: Dataset, sample: nat): (r: Common) {
    Common(setup.run, PairId(d.id, sample), d.id, d.task, d.stratum, setup.baseline, sample,
           setup.evidence, setup.pins, setup.files.environment.digest)
  }

  function OrderAt(orders: map<Slot, int>, slot: Slot): (r: int) {
    if slot in orders then orders[slot] else 0
  }

  function PairFor(setup: Setup, d: Dataset, sample: nat, orders: map<Slot, int>): (r: seq<Assignment>) {
    var order := OrderAt(orders, Slot(d.id, sample));
    [Assignment(CommonFor(setup, d, sample), Baseline, order), Assignment(CommonFor(setup, d, sample), Cigar, 3 - order)]
  }

  function SamplesFor(setup: Setup, d: Dataset, n: nat, orders: map<Slot, int>): (r: seq<Assignment>) {
    if n == 0 then [] else SamplesFor(setup, d, n - 1, orders) + PairFor(setup, d, n - 1, orders)
  }

  function AssignmentsFor(setup: Setup, ds: seq<Dataset>, n: nat, orders: map<Slot, int>): (r: seq<Assignment>) {
    if ds == [] then [] else
      AssignmentsFor(setup, ds[..|ds| - 1], n, orders) + SamplesFor(setup, ds[|ds| - 1], n, orders)
  }

  /** Dataset, then sample, then execution order. */
  predicate Precedes(a: Assignment, b: Assignment) {
    || Less(a.common.dataset, b.common.dataset)
    || (a.common.dataset == b.common.dataset && a.common.sample < b.common.sample)
    || (a.common.dataset == b.common.dataset && a.common.sample == b.common.sample && a.order < b.order)
  }

  function InPlanOrder(): (r: (Assignment, Assignment) -> bool) { (a: Assignment, b: Assignment) => Precedes(a, b) }

  function SortAssignments(xs: seq<Assignment>): (r: seq<Assignment>) { SortBy(InPlanOrder(), xs) }

  function AssignmentsOf(setup: Setup, ds: seq<Dataset>, n: nat, orders: map<Slot, int>): (r: seq<Assignment>) {
    SortAssignments(AssignmentsFor(setup, SortDatasets(ds), n, orders))
  }

  function Sealed(hash: Hash, setup: Setup, ds: seq<Dataset>, seed: Seed, assignments: seq<Assignment>): (r: Plan) {
    var unsigned := Unsigned(hash.seed(seed), hash.manifest(ds), setup.files.baselines, setup.files.canaries, assignments);
    Plan(unsigned, hash.plan(unsigned))
  }

  function PlanFor(shuffle: Shuffle, hash: Hash, setup: Setup, ds: seq<Dataset>, n: nat, seed: Seed): (r: Plan) {
    Sealed(hash, setup, ds, seed, AssignmentsOf(setup, ds, n, Orders(shuffle, ds, n, seed)))
  }

  method Assign(setup: Setup, ds: seq<Dataset>, replicates: nat, orders: map<Slot, int>) returns (r: seq<Assignment>)
    ensures r == AssignmentsFor(setup, ds, replicates, orders)
  {
    r := [];
    for i := 0 to |ds|
      invariant r == AssignmentsFor(setup, ds[..i], replicates, orders)
    {
      assert ds[..i + 1][..i] == ds[..i];
      var before := r;
      for sample := 0 to replicates
        invariant r == before + SamplesFor(setup, ds[i], sample, orders)
      {
        r := r + PairFor(setup, ds[i], sample, orders);
      }
    }
    assert ds[..|ds|] == ds;
  }

  // ---------------------------------------------------------------- the order of a plan

  lemma {:induction false} NotPrecedesIsTransitive(a: Assignment, b: Assignment, c: Assignment)
    requires !Precedes(a, b) && !Precedes(b, c)
    ensures !Precedes(a, c)
  {
    var x, y, z := a.common.dataset, b.common.dataset, c.common.dataset;
    NotLessIsTransitive(x, y, z);
    LessIsTotal(x, y);
    LessIsTotal(y, z);
    if x == z && x != y {
      LessIsOneSided(y, x);
    }
  }

  lemma {:induction false} PlanOrderIsOrder()
    ensures IsOrder(InPlanOrder())
  {
    var less := InPlanOrder();
    forall x, y | less(x, y) ensures !less(y, x) {
      LessIsIrreflexive(x.common.dataset);
      if Less(x.common.dataset, y.common.dataset) {
        LessIsOneSided(x.common.dataset, y.common.dataset);
      }
    }
    forall x, y, z | !less(x, y) && !less(y, z) ensures !less(x, z) {
      NotPrecedesIsTransitive(x, y, z);
    }
  }

  /** A plan lists its assignments by dataset, sample and execution order. */
  lemma {:induction false} PlanIsOrdered(setup: Setup, ds: seq<Dataset>, n: nat, orders: map<Slot, int>)
    ensures OrderedBy(InPlanOrder(), AssignmentsOf(setup, ds, n, orders))
  {
    PlanOrderIsOrder();
    SortByOrdered(InPlanOrder(), AssignmentsFor(setup, SortDatasets(ds), n, orders));
  }

  // ---------------------------------------------------------------- validating a plan

  datatype PairKey = PairKey(pair: Id, treatment: Treatment)

  function KeyOf(): (r: Assignment -> PairKey) { (a: Assignment) => PairKey(a.common.pair, a.treatment) }

  predicate ValidEntry(a: Assignment) {
    && IsIdentifier(a.common.run) && IsIdentifier(a.common.pair) && IsIdentifier(a.common.dataset)
    && IsIdentifier(a.common.task) && IsIdentifier(a.common.stratum) && IsIdentifier(a.common.baseline)
    && (a.order == 1 || a.order == 2)
    && a.common.sample >= 0
    && ValidPins(a.common.pins)
  }

  predicate AllValid(xs: seq<Assignment>) {
    forall a :: a in xs ==> ValidEntry(a)
  }

  /** The other treatment of the same pair, in the other place. */
  predicate Partners(a: Assignment, b: Assignment) {
    a.common == b.common && a.treatment != b.treatment && a.order + b.order == 3
  }

  ghost predicate HasPartner(xs: seq<Assignment>, a: Assignment) {
    exists b :: b in xs && Partners(a, b)
  }

  ghost predicate AllPartnered(xs: seq<Assignment>) {
    forall a :: a in xs ==> HasPartner(xs, a)
  }

  /** A plan is a perfect matching of valid entries under its own digest. */
  ghost predicate ValidPlan(hash: Hash, plan: Plan) {
    var xs := plan.unsigned.assignments;
    && plan.digest == hash.plan(plan.unsigned)
    && 0 < |xs| <= MAX_ASSIGNMENTS
    && AllValid(xs)
    && NoRepeats(Map(KeyOf(), xs))
    && AllPartnered(xs)
  }

  function Members(xs: seq<Assignment>, pair: Id): (r: seq<Assignment>) {
    if xs == [] then [] else
      Members(xs[..|xs| - 1], pair) + if xs[|xs| - 1].common.pair == pair then [xs[|xs| - 1]] else []
  }

  function MembersAt(groups: map<Id, seq<Assignment>>, pair: Id): (r: seq<Assignment>) {
    if pair in groups then groups[pair] else []
  }

  predicate CompletePair(values: seq<Assignment>) {
    |values| == 2 && Partners(values[0], values[1])
  }

  method ValidatePlan(hash: Hash, plan: Plan) returns (ok: bool)
    ensures ok <==> ValidPlan(hash, plan)
  {
    var xs := plan.unsigned.assignments;
    if hash.plan(plan.unsigned) != plan.digest || xs == [] || |xs| > MAX_ASSIGNMENTS {
      return false;
    }
    var groups, keys;
    ok, groups, keys := ValidateEntries(xs);
    if !ok {
      return;
    }
    ok := ValidatePairs(xs, groups, keys);
  }

  method ValidatePairs(ghost xs: seq<Assignment>, groups: map<Id, seq<Assignment>>, keys: seq<Id>) returns (ok: bool)
    requires Grouped(xs, groups, keys) && NoRepeats(Map(KeyOf(), xs))
    ensures ok <==> AllPartnered(xs)
  {
    for i := 0 to |keys|
      invariant forall j :: 0 <= j < i ==> CompletePair(Members(xs, keys[j]))
    {
      assert keys[i] in keys && MembersAt(groups, keys[i]) == Members(xs, keys[i]);
      if !CompletePair(MembersAt(groups, keys[i])) {
        IncompletePair(xs, keys[i]);
        return false;
      }
    }
    CompletePairs(xs, keys);
    ok := true;
  }

  /** Groups hold the entries of each pair so far, in order; keys are the pairs that have any. */
  ghost predicate Grouped(xs: seq<Assignment>, groups: map<Id, seq<Assignment>>, keys: seq<Id>) {
    && (forall p :: MembersAt(groups, p) == Members(xs, p))
    && (forall p :: p in keys <==> Members(xs, p) != [])
  }

  method AddMember(ghost xs: seq<Assignment>, a: Assignment, groups: map<Id, seq<Assignment>>, keys: seq<Id>)
    returns (more: map<Id, seq<Assignment>>, pairs: seq<Id>)
    requires Grouped(xs, groups, keys)
    ensures Grouped(xs + [a], more, pairs)
  {
    assert (xs + [a])[..|xs|] == xs;
    var p := a.common.pair;
    more := groups[p := MembersAt(groups, p) + [a]];
    pairs := if p in keys then keys else keys + [p];
  }

  method ValidateEntries(xs: seq<Assignment>) returns (ok: bool, groups: map<Id, seq<Assignment>>, keys: seq<Id>)
    ensures ok <==> AllValid(xs) && NoRepeats(Map(KeyOf(), xs))
    ensures ok ==> Grouped(xs, groups, keys)
  {
    var seen: seq<PairKey> := [];
    groups, keys := map[], [];
    for i := 0 to |xs|
      invariant AllValid(xs[..i])
      invariant seen == Map(KeyOf(), xs[..i]) && NoRepeats(seen)
      invariant Grouped(xs[..i], groups, keys)
    {
      OneMoreValid(xs, i);
      SeenImage(KeyOf(), xs, i);
      if !ValidEntry(xs[i]) || KeyOf()(xs[i]) in seen {
        return false, groups, keys;
      }
      seen := seen + [KeyOf()(xs[i])];
      groups, keys := AddMember(xs[..i], xs[i], groups, keys);
    }
    assert xs[..|xs|] == xs;
    ok := true;
  }

  lemma {:induction false} OneMoreValid(xs: seq<Assignment>, i: nat)
    requires i < |xs| && AllValid(xs[..i])
    ensures xs[..i + 1] == xs[..i] + [xs[i]]
    ensures ValidEntry(xs[i]) <==> AllValid(xs[..i + 1])
    ensures !ValidEntry(xs[i]) ==> !AllValid(xs)
  {
    assert xs[..i + 1] == xs[..i] + [xs[i]];
    assert xs[i] in xs[..i + 1] && xs[i] in xs;
  }

  // ---------------------------------------------------------------- groups are pairs

  lemma {:induction false} MembersMember(xs: seq<Assignment>, pair: Id, a: Assignment)
    ensures a in Members(xs, pair) <==> a in xs && a.common.pair == pair
  {
    if xs != [] {
      MembersMember(xs[..|xs| - 1], pair, a);
      assert xs == xs[..|xs| - 1] + [xs[|xs| - 1]];
    }
  }

  lemma {:induction false} MembersNoRepeats(xs: seq<Assignment>, pair: Id)
    requires NoRepeats(Map(KeyOf(), xs))
    ensures NoRepeats(Map(KeyOf(), Members(xs, pair)))
  {
    if xs != [] {
      var before, a := xs[..|xs| - 1], xs[|xs| - 1];
      assert xs == before + [a];
      MapConcat(KeyOf(), before, [a]);
      NoRepeatsPrefix(Map(KeyOf(), before), Map(KeyOf(), [a]));
      MembersNoRepeats(before, pair);
      if a.common.pair == pair {
        var inside := Members(before, pair);
        MapConcat(KeyOf(), inside, [a]);
        forall k | k in Map(KeyOf(), inside) ensures k !in Map(KeyOf(), [a]) {
          MapMember(KeyOf(), inside, k);
          var b :| b in inside && KeyOf()(b) == k;
          MembersMember(before, pair, b);
          MapMember(KeyOf(), before, k);
        }
        ConcatNoRepeats(Map(KeyOf(), inside), Map(KeyOf(), [a]));
      } else {
        assert Members(xs, pair) == Members(before, pair);
      }
    }
  }

  /** With distinct keys a group holds at most one entry of each treatment. */
  lemma {:induction false} GroupHasTwo(xs: seq<Assignment>, pair: Id, a: Assignment, b: Assignment)
    requires NoRepeats(Map(KeyOf(), xs)) && a in xs && b in xs && Partners(a, b) && a.common.pair == pair
    ensures CompletePair(Members(xs, pair))
  {
    var group := Members(xs, pair);
    MembersNoRepeats(xs, pair);
    MembersMember(xs, pair, a);
    MembersMember(xs, pair, b);
    NoRepeatsImage(KeyOf(), group);
    assert NoRepeats([a, b]);
    forall x ensures x in group <==> x in [a, b] {
      MembersMember(xs, pair, x);
      if x in group {
        ImageDetermines(KeyOf(), xs, x, if x.treatment == a.treatment then a else b);
      }
    }
    SameElements(group, [a, b]);
    assert |group| == |multiset(group)| == 2;
    assert group[0] in [a, b] && group[1] in [a, b];
    NoRepeatsIndices(group);
  }

  lemma {:induction false} IncompletePair(xs: seq<Assignment>, pair: Id)
    requires NoRepeats(Map(KeyOf(), xs)) && Members(xs, pair) != [] && !CompletePair(Members(xs, pair))
    ensures !AllPartnered(xs)
  {
    var a := Members(xs, pair)[0];
    MembersMember(xs, pair, a);
    if HasPartner(xs, a) {
      var b :| b in xs && Partners(a, b);
      GroupHasTwo(xs, pair, a, b);
    }
  }

  lemma {:induction false} CompletePairs(xs: seq<Assignment>, keys: seq<Id>)
    requires forall p :: p in keys <==> Members(xs, p) != []
    requires forall j :: 0 <= j < |keys| ==> CompletePair(Members(xs, keys[j]))
    ensures AllPartnered(xs)
  {
    forall a | a in xs ensures HasPartner(xs, a) {
      var group := Members(xs, a.common.pair);
      MembersMember(xs, a.common.pair, a);
      assert a.common.pair in keys;
      var b := if a == group[0] then group[1] else group[0];
      MembersMember(xs, a.common.pair, b);
      assert Partners(a, b);
    }
  }
}

/** The seeded, counterbalanced treatment orders of benches/cigarbench/cigarbench.py. */
module BenchOrders {
  import opened Wrappers
  import opened Sequences
  import opened Listings
  import opened BenchRecords

  /** One replicate of one dataset. */
  datatype Slot = Slot(dataset: Id, sample: nat)

  /** The generator's shuffle: it depends on the seed and on what it has shuffled before. */
  type Shuffle = f: (Seed, seq<nat>, seq<int>) -> seq<int> | Permutes(f) ghost witness (seed, history, xs) => xs

  ghost predicate Permutes(f: (Seed, seq<nat>, seq<int>) -> seq<int>) {
    forall seed, history, xs :: multiset(f(seed, history, xs)) == multiset(xs)
  }

  const MAX_REPLICATES: nat := 100_000

  function IdOf(): (r: Dataset -> Id) { (d: Dataset) => d.id }

  predicate DistinctIds(ds: seq<Dataset>) { NoRepeats(Map(IdOf(), ds)) }

  // ---------------------------------------------------------------- sorting and grouping

  function ById(): (r: (Dataset, Dataset) -> bool) { (a: Dataset, b: Dataset) => Less(a.id, b.id) }

  function SortDatasets(ds: seq<Dataset>): (r: seq<Dataset>) { SortBy(ById(), ds) }

  function ByName(): (r: (Id, Id) -> bool) { (a: Id, b: Id) => Less(a, b) }

  function SortIds(xs: seq<Id>): (r: seq<Id>) { SortBy(ByName(), xs) }

  function DatasetsIn(ds: seq<Dataset>, stratum: Id): (r: seq<Dataset>) {
    if ds == [] then [] else
      DatasetsIn(ds[..|ds| - 1], stratum) + if ds[|ds| - 1].stratum == stratum then [ds[|ds| - 1]] else []
  }

  /** The strata in order of first appearance, as a dictionary keeps its keys. */
  function Strata(ds: seq<Dataset>): (r: seq<Id>) {
    if ds == [] then [] else
      var before := Strata(ds[..|ds| - 1]);
      if ds[|ds| - 1].stratum in before then before else before + [ds[|ds| - 1].stratum]
  }

  function Samples(id: Id, n: nat): (r: seq<Slot>) {
    if n == 0 then [] else Samples(id, n - 1) + [Slot(id, n - 1)]
  }

  function SlotsOf(ds: seq<Dataset>, n: nat): (r: seq<Slot>) {
    if ds == [] then [] else Samples(ds[0].id, n) + SlotsOf(ds[1..], n)
  }

  function StratumSlots(ds: seq<Dataset>, stratum: Id, n: nat): (r: seq<Slot>) {
    SlotsOf(SortDatasets(DatasetsIn(ds, stratum)), n)
  }

  // ---------------------------------------------------------------- orders

  function Alternating(n: nat): (r: seq<int>)
    ensures |r| == n
  {
    if n == 0 then [] else Alternating(n - 1) + [if (n - 1) % 2 == 0 then 1 else 2]
  }

  function Zip(slots: seq<Slot>, orders: seq<int>): (r: map<Slot, int>)
    requires |slots| == |orders|
  {
    var n := |slots|;
    if n == 0 then map[] else Zip(slots[..n - 1], orders[..n - 1])[slots[n - 1] := orders[n - 1]]
  }

  function StratumOrders(shuffle: Shuffle, seed: Seed, history: seq<nat>, n: nat): (r: seq<int>)
    ensures |r| == n
  {
    assert |multiset(shuffle(seed, history, Alternating(n)))| == |multiset(Alternating(n))|;
    shuffle(seed, history, Alternating(n))
  }

  function OrdersFrom(shuffle: Shuffle, ds: seq<Dataset>, n: nat, seed: Seed,
                      strata: seq<Id>, history: seq<nat>, orders: map<Slot, int>): (r: map<Slot, int>)
    decreases |strata|
  {
    if strata == [] then orders else
      var slots := StratumSlots(ds, strata[0], n);
      OrdersFrom(shuffle, ds, n, seed, strata[1..], history + [|slots|],
                 orders + Zip(slots, StratumOrders(shuffle, seed, history, |slots|)))
  }

  function Orders(shuffle: Shuffle, ds: seq<Dataset>, n: nat, seed: Seed): (r: map<Slot, int>) {
    OrdersFrom(shuffle, ds, n, seed, SortIds(Strata(ds)), [], map[])
  }

  /** The source's two loops: group the manifest by stratum, then shuffle and assign stratum by stratum. */
  method SeededBaselineOrders(shuffle: Shuffle, ds: seq<Dataset>, replicates: int, seed: Seed) returns (r: Option<map<Slot, int>>)
    ensures r.Some? <==> 0 < replicates <= MAX_REPLICATES
    ensures r.Some? ==> r.value == Orders(shuffle, ds, replicates, seed)
  {
    if replicates <= 0 || replicates > MAX_REPLICATES {
      return None;
    }
    var groups, keys := Group(ds);
    var orders := AssignOrders(shuffle, ds, groups, SortIds(keys), replicates, seed);
    r := Some(orders);
  }

  method AssignOrders(shuffle: Shuffle, ghost ds: seq<Dataset>, groups: map<Id, seq<Dataset>>, strata: seq<Id>, n: nat, seed: Seed)
    returns (orders: map<Slot, int>)
    requires forall s :: GroupAt(groups, s) == DatasetsIn(ds, s)
    ensures orders == OrdersFrom(shuffle, ds, n, seed, strata, [], map[])
  {
    var history: seq<nat>;
    orders, history := map[], [];
    ghost var goal := OrdersFrom(shuffle, ds, n, seed, strata, history, orders);
    assert strata[0..] == strata;
    for i := 0 to |strata|
      invariant OrdersFrom(shuffle, ds, n, seed, strata[i..], history, orders) == goal
    {
      NextStratum(shuffle, ds, n, seed, strata, i, history, orders);
      var slots := SlotsOf(SortDatasets(GroupAt(groups, strata[i])), n);
      assert slots == StratumSlots(ds, strata[i], n);
      orders := orders + Zip(slots, StratumOrders(shuffle, seed, history, |slots|));
      history := history + [|slots|];
    }
    assert strata[|strata|..] == [];
  }

  lemma {:induction false} NextStratum(shuffle: Shuffle, ds: seq<Dataset>, n: nat, seed: Seed,
                                       strata: seq<Id>, i: nat, history: seq<nat>, orders: map<Slot, int>)
    requires i < |strata|
    ensures var slots := StratumSlots(ds, strata[i], n);
            OrdersFrom(shuffle, ds, n, seed, strata[i..], history, orders)
            == OrdersFrom(shuffle, ds, n, seed, strata[i + 1..], history + [|slots|],
                          orders + Zip(slots, StratumOrders(shuffle, seed, history, |slots|)))
  {
    assert strata[i..][1..] == strata[i + 1..];
  }

  /** A dictionary that starts every key at the empty list. */
  function GroupAt(groups: map<Id, seq<Dataset>>, s: Id): (r: seq<Dataset>) {
    if s in groups then groups[s] else []
  }

  method Group(ds: seq<Dataset>) returns (groups: map<Id, seq<Dataset>>, keys: seq<Id>)
    ensures keys == Strata(ds)
    ensures forall s :: GroupAt(groups, s) == DatasetsIn(ds, s)
  {
    groups, keys := map[], [];
    for i := 0 to |ds|
      invariant keys == Strata(ds[..i])
      invariant forall s :: s in keys <==> s in groups
      invariant forall s :: GroupAt(groups, s) == DatasetsIn(ds[..i], s)
    {
      assert ds[..i + 1][..i] == ds[..i];
      var s := ds[i].stratum;
      groups := groups[s := GroupAt(groups, s) + [ds[i]]];
      if s !in keys {
        keys := keys + [s];
      }
    }
    assert ds[..|ds|] == ds;
  }

  lemma {:induction false} StrataSorted(ds: seq<Dataset>)
    ensures forall s :: s in SortIds(Strata(ds)) <==> s in Strata(ds)
  {
    forall s ensures s in SortIds(Strata(ds)) <==> s in Strata(ds) {
      SortByMember(ByName(), Strata(ds), s);
    }
  }

  // ---------------------------------------------------------------- sorting forgets how the manifest is listed

  lemma {:induction false} ByIdIsOrder()
    ensures IsOrder(ById())
  {
    var less := ById();
    forall x, y | less(x, y) ensures !less(y, x) {
      LessIsOneSided(x.id, y.id);
    }
    forall x, y, z | !less(x, y) && !less(y, z) ensures !less(x, z) {
      NotLessIsTransitive(x.id, y.id, z.id);
    }
  }

  lemma {:induction false} ByNameIsOrder()
    ensures IsOrder(ByName())
  {
    var less := ByName();
    forall x, y | less(x, y) ensures !less(y, x) {
      LessIsOneSided(x, y);
    }
    forall x, y, z | !less(x, y) && !less(y, z) ensures !less(x, z) {
      NotLessIsTransitive(x, y, z);
    }
  }

  lemma {:induction false} SortedDatasetsForgetListing(ds: seq<Dataset>, es: seq<Dataset>)
    requires DistinctIds(ds) && multiset(ds) == multiset(es)
    ensures SortDatasets(ds) == SortDatasets(es)
  {
    ByIdIsOrder();
    forall x, y | x in ds && y in ds && !ById()(x, y) && !ById()(y, x) ensures x == y {
      LessIsTotal(x.id, y.id);
      ImageDetermines(IdOf(), ds, x, y);
    }
    SortByForgetsListing(ById(), ds, es);
  }

  lemma {:induction false} SortedIdsForgetListing(xs: seq<Id>, ys: seq<Id>)
    requires multiset(xs) == multiset(ys)
    ensures SortIds(xs) == SortIds(ys)
  {
    ByNameIsOrder();
    forall x, y | x in xs && y in xs && !ByName()(x, y) && !ByName()(y, x) ensures x == y {
      LessIsTotal(x, y);
    }
    SortByForgetsListing(ByName(), xs, ys);
  }
}

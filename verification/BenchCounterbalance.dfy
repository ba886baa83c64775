/** For any shuffle the seeded orders are balanced within every stratum. */
module BenchCounterbalance {
  import opened Sequences
  import opened Listings
  import opened BenchRecords
  import opened BenchOrders

  // ---------------------------------------------------------------- slots

  lemma {:induction false} SamplesMember(id: Id, n: nat, slot: Slot)
    ensures slot in Samples(id, n) <==> slot.dataset == id && slot.sample < n
  {
    if n > 0 {
      SamplesMember(id, n - 1, slot);
    }
  }

  lemma {:induction false} SlotsMember(ds: seq<Dataset>, n: nat, slot: Slot)
    ensures slot in SlotsOf(ds, n) <==> slot.dataset in Map(IdOf(), ds) && slot.sample < n
  {
    if ds != [] {
      SamplesMember(ds[0].id, n, slot);
      SlotsMember(ds[1..], n, slot);
      assert Map(IdOf(), ds) == [ds[0].id] + Map(IdOf(), ds[1..]);
    }
  }

  lemma {:induction false} SamplesNoRepeats(id: Id, n: nat)
    ensures NoRepeats(Samples(id, n)) && |Samples(id, n)| == n
  {
    if n > 0 {
      SamplesNoRepeats(id, n - 1);
      SamplesMember(id, n - 1, Slot(id, n - 1));
      assert NoRepeats([Slot(id, n - 1)]);
      ConcatNoRepeats(Samples(id, n - 1), [Slot(id, n - 1)]);
    }
  }

  lemma {:induction false} SlotsNoRepeats(ds: seq<Dataset>, n: nat)
    requires DistinctIds(ds)
    ensures NoRepeats(SlotsOf(ds, n))
  {
    if ds != [] {
      assert Map(IdOf(), ds)[1..] == Map(IdOf(), ds[1..]);
      SlotsNoRepeats(ds[1..], n);
      SamplesNoRepeats(ds[0].id, n);
      forall x | x in Samples(ds[0].id, n) ensures x !in SlotsOf(ds[1..], n) {
        SamplesMember(ds[0].id, n, x);
        SlotsMember(ds[1..], n, x);
      }
      ConcatNoRepeats(Samples(ds[0].id, n), SlotsOf(ds[1..], n));
    }
  }

  lemma {:induction false} SlotsConcat(a: seq<Dataset>, b: seq<Dataset>, n: nat)
    ensures SlotsOf(a + b, n) == SlotsOf(a, n) + SlotsOf(b, n)
  {
    if a == [] {
      assert a + b == b;
    } else {
      SlotsConcat(a[1..], b, n);
      assert (a + b)[1..] == a[1..] + b;
      Associative(Samples(a[0].id, n), SlotsOf(a[1..], n), SlotsOf(b, n));
    }
  }

  lemma {:induction false} SlotsPermutation(a: seq<Dataset>, b: seq<Dataset>, n: nat)
    requires multiset(a) == multiset(b)
    ensures multiset(SlotsOf(a, n)) == multiset(SlotsOf(b, n))
  {
    if a == [] {
      assert |b| == |multiset(b)| == 0;
    } else {
      var i := StrikeHead(a, b);
      SlotsPermutation(a[1..], b[..i] + b[i + 1..], n);
      SlotsStrike(b, i, n);
    }
  }

  lemma {:induction false} SlotsStrike(ds: seq<Dataset>, i: nat, n: nat)
    requires i < |ds|
    ensures multiset(SlotsOf(ds, n)) == multiset(Samples(ds[i].id, n)) + multiset(SlotsOf(ds[..i] + ds[i + 1..], n))
  {
    var before, after := SlotsOf(ds[..i], n), SlotsOf(ds[i + 1..], n);
    SlotsConcat(ds[..i], ds[i + 1..], n);
    SlotsConcat(ds[..i], ds[i..], n);
    assert ds == ds[..i] + ds[i..];
    assert ds[i..][1..] == ds[i + 1..];
    assert SlotsOf(ds, n) == before + (Samples(ds[i].id, n) + after);
  }

  // ---------------------------------------------------------------- groups

  function InStratum(s: Id): (r: Dataset -> bool) { (d: Dataset) => d.stratum == s }

  lemma {:induction false} DatasetsInIsFilter(ds: seq<Dataset>, s: Id)
    ensures DatasetsIn(ds, s) == Filter(InStratum(s), ds)
  {
    if ds != [] {
      var before, last := ds[..|ds| - 1], ds[|ds| - 1];
      DatasetsInIsFilter(before, s);
      FilterConcat(InStratum(s), before, [last]);
      assert ds == before + [last];
    }
  }

  lemma {:induction false} FilterDistinct(p: Dataset -> bool, ds: seq<Dataset>)
    requires DistinctIds(ds)
    ensures DistinctIds(Filter(p, ds))
  {
    if ds != [] {
      assert Map(IdOf(), ds)[1..] == Map(IdOf(), ds[1..]);
      FilterDistinct(p, ds[1..]);
      var rest := Filter(p, ds[1..]);
      if !p(ds[0]) {
        assert Filter(p, ds) == rest;
      } else {
        assert Filter(p, ds) == [ds[0]] + rest;
        assert Map(IdOf(), Filter(p, ds)) == [ds[0].id] + Map(IdOf(), rest);
        if ds[0].id in Map(IdOf(), rest) {
          MapMember(IdOf(), rest, ds[0].id);
          var d :| d in rest && IdOf()(d) == ds[0].id;
          FilterMember(p, ds[1..], d);
          MapMember(IdOf(), ds[1..], ds[0].id);
        }
      }
    }
  }

  lemma {:induction false} StrataMember(ds: seq<Dataset>, d: Dataset)
    requires d in ds
    ensures d.stratum in Strata(ds)
  {
    var before, last := ds[..|ds| - 1], ds[|ds| - 1];
    if d != last {
      StrataMember(before, d);
    }
  }

  lemma {:induction false} StrataNoRepeats(ds: seq<Dataset>)
    ensures NoRepeats(Strata(ds))
  {
    if ds != [] {
      StrataNoRepeats(ds[..|ds| - 1]);
      var s := ds[|ds| - 1].stratum;
      assert NoRepeats([s]);
      if s !in Strata(ds[..|ds| - 1]) {
        ConcatNoRepeats(Strata(ds[..|ds| - 1]), [s]);
      }
    }
  }

  /** A stratum's slots are exactly the replicates of its datasets. */
  lemma {:induction false} StratumSlotsPermutation(ds: seq<Dataset>, s: Id, n: nat)
    requires DistinctIds(ds)
    ensures NoRepeats(StratumSlots(ds, s, n))
    ensures multiset(StratumSlots(ds, s, n)) == multiset(SlotsOf(Filter(InStratum(s), ds), n))
  {
    DatasetsInIsFilter(ds, s);
    FilterDistinct(InStratum(s), ds);
    var inside := Filter(InStratum(s), ds);
    SortByMultiset(ById(), inside);
    SlotsPermutation(SortDatasets(inside), inside, n);
    SlotsNoRepeats(inside, n);
    PermutationNoRepeats(SlotsOf(inside, n), SlotsOf(SortDatasets(inside), n));
  }

  lemma {:induction false} StratumSlotsMember(ds: seq<Dataset>, s: Id, n: nat, slot: Slot)
    requires DistinctIds(ds)
    ensures slot in StratumSlots(ds, s, n) <==>
            slot.sample < n && exists d :: d in ds && d.stratum == s && d.id == slot.dataset
  {
    StratumSlotsPermutation(ds, s, n);
    var inside := Filter(InStratum(s), ds);
    assert slot in StratumSlots(ds, s, n) <==> slot in multiset(StratumSlots(ds, s, n));
    assert slot in SlotsOf(inside, n) <==> slot in multiset(SlotsOf(inside, n));
    SlotsMember(inside, n, slot);
    MapMember(IdOf(), inside, slot.dataset);
    forall d ensures d in inside <==> d in ds && d.stratum == s {
      FilterMember(InStratum(s), ds, d);
    }
  }

  lemma {:induction false} StrataDisjoint(ds: seq<Dataset>, s: Id, t: Id, n: nat, slot: Slot)
    requires DistinctIds(ds) && slot in StratumSlots(ds, s, n) && slot in StratumSlots(ds, t, n)
    ensures s == t
  {
    StratumSlotsMember(ds, s, n, slot);
    StratumSlotsMember(ds, t, n, slot);
    var d :| d in ds && d.stratum == s && d.id == slot.dataset;
    var e :| e in ds && e.stratum == t && e.id == slot.dataset;
    ImageDetermines(IdOf(), ds, d, e);
  }

  // ---------------------------------------------------------------- orders

  lemma {:induction false} ZipMember(slots: seq<Slot>, orders: seq<int>, slot: Slot)
    requires |slots| == |orders|
    ensures slot in Zip(slots, orders) <==> slot in slots
  {
    var n := |slots|;
    if n > 0 {
      ZipMember(slots[..n - 1], orders[..n - 1], slot);
      assert slots == slots[..n - 1] + [slots[n - 1]];
    }
  }

  lemma {:induction false} ZipAt(slots: seq<Slot>, orders: seq<int>, k: nat)
    requires |slots| == |orders| && k < |slots|
    requires forall i, j :: 0 <= i < j < |slots| ==> slots[i] != slots[j]
    ensures slots[k] in Zip(slots, orders) && Zip(slots, orders)[slots[k]] == orders[k]
  {
    var n := |slots|;
    if k < n - 1 {
      ZipAt(slots[..n - 1], orders[..n - 1], k);
    }
  }

  lemma {:induction false} NoRepeatsIndices<T>(xs: seq<T>)
    requires NoRepeats(xs)
    ensures forall i, j :: 0 <= i < j < |xs| ==> xs[i] != xs[j]
  {
    if xs != [] {
      NoRepeatsIndices(xs[1..]);
    }
  }

  /** Slots of other strata keep what they had. */
  lemma {:induction false} OrdersKeep(shuffle: Shuffle, ds: seq<Dataset>, n: nat, seed: Seed,
                                      strata: seq<Id>, history: seq<nat>, orders: map<Slot, int>, slot: Slot)
    requires slot in orders && forall t :: t in strata ==> slot !in StratumSlots(ds, t, n)
    ensures var r := OrdersFrom(shuffle, ds, n, seed, strata, history, orders);
            slot in r && r[slot] == orders[slot]
    decreases |strata|
  {
    if strata != [] {
      var slots := StratumSlots(ds, strata[0], n);
      var given := StratumOrders(shuffle, seed, history, |slots|);
      ZipMember(slots, given, slot);
      assert strata[0] in strata;
      OrdersKeep(shuffle, ds, n, seed, strata[1..], history + [|slots|], orders + Zip(slots, given), slot);
    }
  }

  lemma {:induction false} FirstStratumKeeps(shuffle: Shuffle, ds: seq<Dataset>, n: nat, seed: Seed,
                                             strata: seq<Id>, history: seq<nat>, orders: map<Slot, int>)
    requires DistinctIds(ds) && NoRepeats(strata) && strata != []
    ensures var slots := StratumSlots(ds, strata[0], n);
            var given := StratumOrders(shuffle, seed, history, |slots|);
            var r := OrdersFrom(shuffle, ds, n, seed, strata, history, orders);
            forall k :: 0 <= k < |slots| ==> slots[k] in r && r[slots[k]] == given[k]
    decreases |strata|
  {
    var slots := StratumSlots(ds, strata[0], n);
    var given := StratumOrders(shuffle, seed, history, |slots|);
    StratumSlotsPermutation(ds, strata[0], n);
    NoRepeatsIndices(slots);
    forall k | 0 <= k < |slots|
      ensures var r := OrdersFrom(shuffle, ds, n, seed, strata, history, orders);
              slots[k] in r && r[slots[k]] == given[k]
    {
      ZipAt(slots, given, k);
      SlotStays(ds, n, strata, slots[k]);
      OrdersKeep(shuffle, ds, n, seed, strata[1..], history + [|slots|], orders + Zip(slots, given), slots[k]);
    }
  }

  lemma {:induction false} SlotStays(ds: seq<Dataset>, n: nat, strata: seq<Id>, slot: Slot)
    requires DistinctIds(ds) && NoRepeats(strata) && strata != [] && slot in StratumSlots(ds, strata[0], n)
    ensures forall t :: t in strata[1..] ==> slot !in StratumSlots(ds, t, n)
  {
    forall t | t in strata[1..] ensures slot !in StratumSlots(ds, t, n) {
      if slot in StratumSlots(ds, t, n) {
        StrataDisjoint(ds, strata[0], t, n, slot);
      }
    }
  }

  /** Each stratum's slots end with a shuffled alternation. */
  lemma {:induction false} OrdersGive(shuffle: Shuffle, ds: seq<Dataset>, n: nat, seed: Seed,
                                      strata: seq<Id>, history: seq<nat>, orders: map<Slot, int>, s: Id)
    returns (given: seq<int>)
    requires DistinctIds(ds) && NoRepeats(strata) && s in strata
    ensures var slots := StratumSlots(ds, s, n);
            var r := OrdersFrom(shuffle, ds, n, seed, strata, history, orders);
            && |given| == |slots| && multiset(given) == multiset(Alternating(|slots|))
            && forall k :: 0 <= k < |slots| ==> slots[k] in r && r[slots[k]] == given[k]
    decreases |strata|
  {
    var slots := StratumSlots(ds, strata[0], n);
    var first := StratumOrders(shuffle, seed, history, |slots|);
    var after := orders + Zip(slots, first);
    if s == strata[0] {
      given := first;
      FirstStratumKeeps(shuffle, ds, n, seed, strata, history, orders);
    } else {
      given := OrdersGive(shuffle, ds, n, seed, strata[1..], history + [|slots|], after, s);
    }
  }

  // ---------------------------------------------------------------- balance

  /** First-place minus second-place. */
  function Sign(order: int): (r: int) { if order == 1 then 1 else if order == 2 then -1 else 0 }

  function SignOf(): (r: int -> int) { (order: int) => Sign(order) }

  function SlotSign(orders: map<Slot, int>): (r: Slot -> int) {
    (slot: Slot) => if slot in orders then Sign(orders[slot]) else 0
  }

  lemma {:induction false} AlternatingBalanced(n: nat)
    ensures Tally(SignOf(), Alternating(n)) == n % 2
  {
    if n > 0 {
      AlternatingBalanced(n - 1);
      TallyConcat(SignOf(), Alternating(n - 1), [if (n - 1) % 2 == 0 then 1 else 2]);
    }
  }

  lemma {:induction false} TallySlots(orders: map<Slot, int>, slots: seq<Slot>, given: seq<int>)
    requires |slots| == |given|
    requires forall k :: 0 <= k < |slots| ==> slots[k] in orders && orders[slots[k]] == given[k]
    ensures Tally(SlotSign(orders), slots) == Tally(SignOf(), given)
  {
    if slots != [] {
      assert slots[0] in orders;
      TallySlots(orders, slots[1..], given[1..]);
    }
  }

  lemma {:induction false} AlternatingOrders(n: nat, order: int)
    requires order in Alternating(n)
    ensures order == 1 || order == 2
  {
    if n > 0 && order in Alternating(n - 1) {
      AlternatingOrders(n - 1, order);
    }
  }

  /** In every stratum, baseline goes first as often as second, or once more. */
  lemma {:induction false} OrdersBalanced(shuffle: Shuffle, ds: seq<Dataset>, n: nat, seed: Seed, s: Id)
    requires DistinctIds(ds) && s in Strata(ds)
    ensures 0 <= Tally(SlotSign(Orders(shuffle, ds, n, seed)), SlotsOf(Filter(InStratum(s), ds), n)) <= 1
  {
    var orders, slots := Orders(shuffle, ds, n, seed), StratumSlots(ds, s, n);
    StrataNoRepeats(ds);
    SortByMultiset(ByName(), Strata(ds));
    PermutationNoRepeats(Strata(ds), SortIds(Strata(ds)));
    StrataSorted(ds);
    var given := OrdersGive(shuffle, ds, n, seed, SortIds(Strata(ds)), [], map[], s);
    TallySlots(orders, slots, given);
    TallyPermutation(SignOf(), given, Alternating(|slots|));
    AlternatingBalanced(|slots|);
    StratumSlotsPermutation(ds, s, n);
    TallyPermutation(SlotSign(orders), slots, SlotsOf(Filter(InStratum(s), ds), n));
  }

  /** Every replicate of every dataset has an order, one or two. */
  lemma {:induction false} OrdersDefined(shuffle: Shuffle, ds: seq<Dataset>, n: nat, seed: Seed, d: Dataset, i: nat)
    requires DistinctIds(ds) && d in ds && i < n
    ensures var orders := Orders(shuffle, ds, n, seed);
            Slot(d.id, i) in orders && (orders[Slot(d.id, i)] == 1 || orders[Slot(d.id, i)] == 2)
  {
    var slots, slot := StratumSlots(ds, d.stratum, n), Slot(d.id, i);
    StrataMember(ds, d);
    StrataNoRepeats(ds);
    SortByMultiset(ByName(), Strata(ds));
    PermutationNoRepeats(Strata(ds), SortIds(Strata(ds)));
    StrataSorted(ds);
    var given := OrdersGive(shuffle, ds, n, seed, SortIds(Strata(ds)), [], map[], d.stratum);
    StratumSlotsMember(ds, d.stratum, n, slot);
    var k :| 0 <= k < |slots| && slots[k] == slot;
    assert given[k] in multiset(Alternating(|slots|));
    AlternatingOrders(|slots|, given[k]);
  }

  // ---------------------------------------------------------------- the listing of the manifest does not matter

  lemma {:induction false} FilterPermutation<T>(p: T -> bool, a: seq<T>, b: seq<T>)
    requires multiset(a) == multiset(b)
    ensures multiset(Filter(p, a)) == multiset(Filter(p, b))
  {
    if a == [] {
      assert |b| == |multiset(b)| == 0;
    } else {
      var i := StrikeHead(a, b);
      FilterPermutation(p, a[1..], b[..i] + b[i + 1..]);
      FilterStrike(p, b, i);
      assert Filter(p, a) == (if p(a[0]) then [a[0]] else []) + Filter(p, a[1..]);
    }
  }

  lemma {:induction false} FilterStrike<T>(p: T -> bool, b: seq<T>, i: nat)
    requires i < |b|
    ensures multiset(Filter(p, b)) == multiset(if p(b[i]) then [b[i]] else []) + multiset(Filter(p, b[..i] + b[i + 1..]))
  {
    assert b == b[..i] + b[i..];
    assert b[i..][1..] == b[i + 1..];
    FilterConcat(p, b[..i], b[i + 1..]);
    FilterConcat(p, b[..i], b[i..]);
  }

  lemma {:induction false} SlotsForgetListing(ds: seq<Dataset>, es: seq<Dataset>, s: Id, n: nat)
    requires DistinctIds(ds) && multiset(ds) == multiset(es)
    ensures StratumSlots(ds, s, n) == StratumSlots(es, s, n)
  {
    DatasetsInIsFilter(ds, s);
    DatasetsInIsFilter(es, s);
    FilterDistinct(InStratum(s), ds);
    FilterPermutation(InStratum(s), ds, es);
    SortedDatasetsForgetListing(DatasetsIn(ds, s), DatasetsIn(es, s));
  }

  lemma {:induction false} StrataMeaning(ds: seq<Dataset>, s: Id)
    ensures s in Strata(ds) <==> exists d :: d in ds && d.stratum == s
  {
    if ds != [] {
      StrataMeaning(ds[..|ds| - 1], s);
      assert ds == ds[..|ds| - 1] + [ds[|ds| - 1]];
    }
  }

  lemma {:induction false} StratumForgetsListing(ds: seq<Dataset>, es: seq<Dataset>, s: Id)
    requires multiset(ds) == multiset(es)
    ensures s in Strata(ds) <==> s in Strata(es)
  {
    StrataMeaning(ds, s);
    StrataMeaning(es, s);
    forall d ensures d in ds <==> d in es {
      assert d in ds <==> d in multiset(ds);
      assert d in es <==> d in multiset(es);
    }
  }

  lemma {:induction false} StrataForgetListing(ds: seq<Dataset>, es: seq<Dataset>)
    requires multiset(ds) == multiset(es)
    ensures SortIds(Strata(ds)) == SortIds(Strata(es))
  {
    StrataNoRepeats(ds);
    StrataNoRepeats(es);
    forall s ensures s in Strata(ds) <==> s in Strata(es) {
      StratumForgetsListing(ds, es, s);
    }
    SameElements(Strata(ds), Strata(es));
    SortedIdsForgetListing(Strata(ds), Strata(es));
  }

  lemma {:induction false} OrdersFromForgetListing(shuffle: Shuffle, ds: seq<Dataset>, es: seq<Dataset>, n: nat, seed: Seed,
                                                   strata: seq<Id>, history: seq<nat>, orders: map<Slot, int>)
    requires DistinctIds(ds) && multiset(ds) == multiset(es)
    ensures OrdersFrom(shuffle, ds, n, seed, strata, history, orders) == OrdersFrom(shuffle, es, n, seed, strata, history, orders)
    decreases |strata|
  {
    if strata != [] {
      var slots := StratumSlots(ds, strata[0], n);
      SlotsForgetListing(ds, es, strata[0], n);
      OrdersFromForgetListing(shuffle, ds, es, n, seed, strata[1..], history + [|slots|],
                              orders + Zip(slots, StratumOrders(shuffle, seed, history, |slots|)));
    }
  }

  /** The seeded orders depend on which datasets there are, not on how the manifest lists them. */
  lemma {:induction false} OrdersForgetListing(shuffle: Shuffle, ds: seq<Dataset>, es: seq<Dataset>, n: nat, seed: Seed)
    requires DistinctIds(ds) && multiset(ds) == multiset(es)
    ensures Orders(shuffle, ds, n, seed) == Orders(shuffle, es, n, seed)
  {
    StrataForgetListing(ds, es);
    OrdersFromForgetListing(shuffle, ds, es, n, seed, SortIds(Strata(ds)), [], map[]);
  }
}

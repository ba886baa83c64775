/** How large a benchmark must be for `compare` to report a pass under the version 1 inventories. */
module BenchScale {
  import opened Wrappers
  import opened Listings
  import opened BenchRecords
  import opened BenchOrders
  import opened BenchCounterbalance
  import opened BenchPlanning
  import opened BenchInventory
  import opened BenchSeeding
  import opened BenchEvents
  import opened BenchPairing
  import opened BenchRuns
  import opened BenchAttestation
  import opened BenchDecision
  import opened BenchCompare

  // ---------------------------------------------------------------- tasks are datasets

  lemma {:induction false} NoRepeatsFit<T>(a: seq<T>, b: seq<T>)
    requires NoRepeats(a) && forall x :: x in a ==> x in b
    ensures |a| <= |b|
  {
    if a != [] {
      assert a[0] in a;
      var i :| 0 <= i < |b| && b[i] == a[0];
      var rest := b[..i] + b[i + 1..];
      forall x | x in a[1..] ensures x in rest {
        assert x in a && x != a[0];
        var j :| 0 <= j < |b| && b[j] == x;
        assert if j < i then rest[j] == x else rest[j - 1] == x;
      }
      NoRepeatsFit(a[1..], rest);
    }
  }

  function TaskOfDataset(): (r: Dataset -> Task) { (d: Dataset) => Task(d.stratum, d.id, d.task) }

  /** How many datasets of the manifest are in a stratum. */
  function Share(ds: seq<Dataset>): (r: Id -> int) { (s: Id) => |Filter(InStratum(s), ds)| }

  lemma {:induction false} PairsInMember(pairs: seq<Pair>, s: Id, p: Pair)
    ensures p in PairsIn(pairs, s) <==> p in pairs && StratumOf(p) == s
  {
    if pairs != [] {
      PairsInMember(pairs[..|pairs| - 1], s, p);
      assert pairs == pairs[..|pairs| - 1] + [pairs[|pairs| - 1]];
    }
  }

  /** A pair of an accepted stream is about a dataset of the manifest. */
  lemma {:induction false} DatasetOfPair(hash: Hash, b: Bundle, events: seq<Event>, pairs: seq<Pair>, p: Pair) returns (d: Dataset)
    requires Streamed(hash, b, events) && Pairing(events, pairs) && p in pairs
    ensures d in b.ds && TaskOfDataset()(d) == TaskOfPair()(p)
  {
    var e := p.baseline;
    MapMember(BaselineOf(), pairs, e);
    MultisetMember(Map(BaselineOf(), pairs), Compared(events), e);
    ComparedEvent(events, e);
    BoundMeaning(events, b.plan);
    MapMember(AssignmentOf(), events, e.assignment);
    assert IsFrom(b.ds, e.assignment);
    var c := e.assignment.common;
    d :| d in b.ds && d.id == c.dataset && d.task == c.task && d.stratum == c.stratum;
  }

  /** A stratum has at most as many tasks as the manifest lists datasets in it. */
  lemma {:induction false} TasksAreDatasets(hash: Hash, b: Bundle, events: seq<Event>, pairs: seq<Pair>, s: Id)
    requires Streamed(hash, b, events) && Pairing(events, pairs)
    ensures |Tasks(PairsIn(pairs, s))| <= Share(b.ds)(s)
  {
    var inside := Filter(InStratum(s), b.ds);
    var sample := PairsIn(pairs, s);
    TasksFacts(sample);
    forall t | t in Tasks(sample) ensures t in Map(TaskOfDataset(), inside) {
      MapMember(TaskOfPair(), sample, t);
      var p :| p in sample && TaskOfPair()(p) == t;
      PairsInMember(pairs, s, p);
      var d := DatasetOfPair(hash, b, events, pairs, p);
      FilterMember(InStratum(s), b.ds, d);
      MapMember(TaskOfDataset(), inside, t);
    }
    NoRepeatsFit(Tasks(sample), Map(TaskOfDataset(), inside));
  }

  // ---------------------------------------------------------------- strata share the manifest

  lemma {:induction false} OneMoreDataset(d: Dataset, ds: seq<Dataset>, strata: seq<Id>)
    requires NoRepeats(strata)
    ensures Tally(Share([d] + ds), strata) == Tally(Share(ds), strata) + if d.stratum in strata then 1 else 0
  {
    if strata != [] {
      OneMoreDataset(d, ds, strata[1..]);
      assert ([d] + ds)[1..] == ds;
      assert strata == [strata[0]] + strata[1..];
    }
  }

  lemma {:induction false} SharesFit(ds: seq<Dataset>, strata: seq<Id>)
    requires NoRepeats(strata)
    ensures Tally(Share(ds), strata) <= |ds|
  {
    if ds == [] {
      NoShares(strata);
    } else {
      SharesFit(ds[1..], strata);
      OneMoreDataset(ds[0], ds[1..], strata);
      assert ds == [ds[0]] + ds[1..];
    }
  }

  lemma {:induction false} NoShares(strata: seq<Id>)
    ensures Tally(Share([]), strata) == 0
  {
    if strata != [] {
      NoShares(strata[1..]);
    }
  }

  function AmongThese(xs: seq<Id>): (r: Id -> bool) { (s: Id) => s in xs }

  /** Shares of 30 everywhere and of 381 in the protected strata. */
  lemma {:induction false} SharesAtLeast(f: Id -> int, strata: seq<Id>, protected: seq<Id>)
    requires forall s :: s in strata ==> f(s) >= if s in protected then 381 else 30
    ensures Tally(f, strata) >= 30 * |strata| + 351 * |Filter(AmongThese(protected), strata)|
  {
    if strata != [] {
      assert strata[0] in strata;
      SharesAtLeast(f, strata[1..], protected);
    }
  }

  // ---------------------------------------------------------------- a reported pass

  /** The version 1 inventories, with harm bounded by the upper end of the Wilson interval. */
  ghost predicate VersionOne(rules: Rules) {
    rules.required == RequiredStrata() && rules.protected == ProtectedStrata() && exists root :: IsWilson(rules.harmUpper, root)
  }

  /** At least 30 datasets in every stratum, and 381 in a protected one. */
  predicate Covers(ds: seq<Dataset>, required: seq<Id>, protected: seq<Id>) {
    forall s :: s in required ==> Share(ds)(s) >= if s in protected then 381 else 30
  }

  predicate LargeEnough(ds: seq<Dataset>) { Covers(ds, RequiredStrata(), ProtectedStrata()) }

  /** Under the version 1 inventories a pass needs 381 tasks in each of the three protected strata, and 30 in every stratum. */
  lemma {:induction false} PassNeedsProtectedTasks(setting: Setting, root: (nat, nat) -> real, pairs: seq<Pair>, s: Id)
    requires setting.required == RequiredStrata() && setting.protected == ProtectedStrata() && s in RequiredStrata()
    requires IsWilson(setting.harmUpper, root) && Decision(setting, pairs) == Pass
    ensures |Tasks(PairsIn(pairs, s))| >= if s in ProtectedStrata() then 381 else 30
  {
    if s in ProtectedStrata() {
      PassNeedsTasks(setting, root, pairs, s);
    } else {
      InsufficientIffReasons(setting, pairs);
      EligibleStrata(setting, pairs);
    }
  }

  lemma {:induction false} LargeIsLarge(ds: seq<Dataset>)
    requires LargeEnough(ds)
    ensures |ds| >= 1323
  {
    ProtectedDoNotRepeat();
    forall s | s in ProtectedStrata() ensures s in RequiredStrata() {
      ProtectedAreRequired(s);
    }
    CoveringIsLarge(ds, RequiredStrata(), ProtectedStrata());
  }

  lemma {:induction false} CoveringIsLarge(ds: seq<Dataset>, required: seq<Id>, protected: seq<Id>)
    requires NoRepeats(required) && NoRepeats(protected) && (forall s :: s in protected ==> s in required)
    requires |required| == 9 && |protected| == 3 && Covers(ds, required, protected)
    ensures |ds| >= 1323
  {
    forall s | s in protected ensures s in Filter(AmongThese(protected), required) {
      FilterMember(AmongThese(protected), required, s);
    }
    NoRepeatsFit(protected, Filter(AmongThese(protected), required));
    SharesAtLeast(Share(ds), required, protected);
    SharesFit(ds, required);
  }

  lemma {:induction false} SeededCount(shuffle: Shuffle, xs: seq<Assignment>, ds: seq<Dataset>, seed: Seed, n: nat)
    requires Seeded(shuffle, xs, ds, seed, n) && DistinctIds(ds)
    ensures |xs| == |ds| * n * 2
  {
    var made, listed := Identities(ds, n), Map(IdentityOf(), xs);
    IdentitiesNoRepeats(ds, n);
    forall x ensures x in made <==> x in listed {
      IdentitiesMember(ds, n, x);
    }
    SameElements(made, listed);
    ProducedCount(ds, n);
    assert |made| == |multiset(made)| == |multiset(listed)| == |listed|;
  }

  lemma {:induction false} FewReplicates(k: nat, n: nat)
    requires k >= 1323 && k * n * 2 <= MAX_ASSIGNMENTS
    ensures n <= 18
  {
    assert k * n >= 1323 * n;
  }

  /**
    Whatever was executed: a reported pass under the version 1 rules means at least 381 datasets in each protected
    stratum and 30 in each of the others, so at least 1,323 datasets, and at most 18 replicates.
    */
  lemma {:induction false} PassNeedsDatasets(
    shuffle: Shuffle, hash: Hash, rules: Rules, b: Bundle, events: seq<Event>, seed: Seed, key: Option<Key>, repetitions: int, a: Admitted)
    requires VersionOne(rules)
    requires Comparable(shuffle, hash, b, events, seed, key, repetitions) && Admits(shuffle, hash, b, events, seed, key, a)
    requires ReportOn(SettingOf(rules, a, repetitions), a).decision == Pass
    ensures LargeEnough(b.ds) && |b.ds| >= 1323 && a.replicates <= 18
  {
    var setting := SettingOf(rules, a, repetitions);
    var root :| IsWilson(rules.harmUpper, root);
    forall s | s in RequiredStrata() ensures Share(b.ds)(s) >= if s in ProtectedStrata() then 381 else 30 {
      PassNeedsProtectedTasks(setting, root, a.pairs, s);
      TasksAreDatasets(hash, b, events, a.pairs, s);
    }
    LargeIsLarge(b.ds);
    SeededCount(shuffle, b.plan.unsigned.assignments, b.ds, seed, a.replicates);
    FewReplicates(|b.ds|, a.replicates);
  }
}

/** The stratified cluster bootstrap: whole task clusters are resampled, stratum by stratum. */
module BenchBootstrap {
  import opened Wrappers
  import opened Sequences
  import opened Listings
  import opened BenchRecords
  import opened BenchOrders
  import opened BenchPlanning
  import opened BenchPairing
  import opened BenchDecision
  import opened Wilson
  import opened Percentiles

  // ---------------------------------------------------------------- clusters

  predicate TaskLess(a: Task, b: Task) {
    Less(a.dataset, b.dataset) || (a.dataset == b.dataset && Less(a.task, b.task))
  }

  function ByTask(): (r: (Task, Task) -> bool) { (a: Task, b: Task) => TaskLess(a, b) }

  function SortTasks(ts: seq<Task>): (r: seq<Task>) { SortBy(ByTask(), ts) }

  function ClusterOf(sample: seq<Pair>): (r: Task -> seq<Pair>) { (t: Task) => Cluster(sample, t) }

  /** A stratum's clusters in the order of their keys. */
  function Clusters(sample: seq<Pair>, s: Id): (r: seq<seq<Pair>>) {
    var values := PairsIn(sample, s);
    Map(ClusterOf(values), SortTasks(Tasks(values)))
  }

  function ClustersOf(sample: seq<Pair>): (r: Id -> seq<seq<Pair>>) { (s: Id) => Clusters(sample, s) }

  function Groups(sample: seq<Pair>, strata: seq<Id>): (r: seq<seq<seq<Pair>>>)
    ensures |r| == |strata|
  {
    Map(ClustersOf(sample), strata)
  }

  method BuildClusters(values: seq<Pair>) returns (r: seq<seq<Pair>>)
    ensures r == Map(ClusterOf(values), SortTasks(Tasks(values)))
  {
    var clusters, keys := GroupTasks(values);
    var tasks := SortTasks(keys);
    r := [];
    for i := 0 to |tasks|
      invariant r == Map(ClusterOf(values), tasks[..i])
    {
      MapSnoc(ClusterOf(values), tasks, i);
      r := r + [ClusterAt(clusters, tasks[i])];
    }
    assert tasks[..|tasks|] == tasks;
  }

  /** The nested dictionaries of the source, read in the order of their sorted keys. */
  method BuildGroups(sample: seq<Pair>) returns (r: seq<seq<seq<Pair>>>)
    ensures r == Groups(sample, SortIds(PairStrata(sample)))
  {
    var groups, keys := GroupStrata(sample);
    var strata := SortIds(keys);
    r := [];
    for i := 0 to |strata|
      invariant r == Map(ClustersOf(sample), strata[..i])
    {
      MapSnoc(ClustersOf(sample), strata, i);
      var clusters := StratumGroup(sample, groups, strata[i]);
      r := r + [clusters];
    }
    assert strata[..|strata|] == strata;
  }

  method StratumGroup(ghost sample: seq<Pair>, groups: map<Id, seq<Pair>>, s: Id) returns (r: seq<seq<Pair>>)
    requires PairsAt(groups, s) == PairsIn(sample, s)
    ensures r == ClustersOf(sample)(s)
  {
    r := BuildClusters(PairsAt(groups, s));
  }

  // ---------------------------------------------------------------- resampling

  /** The generator's draws: any number below the given bound. */
  function Pick(pick: (nat, nat) -> nat, i: nat, n: nat): (r: nat)
    requires n > 0
    ensures r < n
  {
    if pick(i, n) < n then pick(i, n) else 0
  }

  function Draw(clusters: seq<seq<Pair>>, pick: (nat, nat) -> nat, from: nat, k: nat): (r: seq<Pair>) {
    if k == 0 || clusters == [] then [] else Draw(clusters, pick, from, k - 1) + clusters[Pick(pick, from + k - 1, |clusters|)]
  }

  predicate Drawable(groups: seq<seq<seq<Pair>>>) {
    forall i :: 0 <= i < |groups| ==> |groups[i]| >= 2
  }

  /** The draws of the strata, one after the other. */
  function Parts(groups: seq<seq<seq<Pair>>>, pick: (nat, nat) -> nat, from: nat): (r: seq<seq<Pair>>)
    ensures |r| == |groups|
  {
    if groups == [] then [] else [Draw(groups[0], pick, from, |groups[0]|)] + Parts(groups[1..], pick, from + |groups[0]|)
  }

  function Resample(groups: seq<seq<seq<Pair>>>, pick: (nat, nat) -> nat, from: nat): (r: seq<Pair>) {
    Flatten(Parts(groups, pick, from))
  }

  method DrawStratum(clusters: seq<seq<Pair>>, pick: (nat, nat) -> nat, from: nat) returns (r: seq<Pair>)
    requires clusters != []
    ensures r == Draw(clusters, pick, from, |clusters|)
  {
    r := [];
    for k := 0 to |clusters|
      invariant r == Draw(clusters, pick, from, k)
    {
      r := r + clusters[Pick(pick, from + k, |clusters|)];
    }
  }

  /** How many draws one resample takes. */
  function Draws(groups: seq<seq<seq<Pair>>>): (r: nat) {
    if groups == [] then 0 else |groups[0]| + Draws(groups[1..])
  }

  method ResampleOnce(groups: seq<seq<seq<Pair>>>, pick: (nat, nat) -> nat, from: nat) returns (r: seq<Pair>, next: nat)
    requires Drawable(groups)
    ensures r == Resample(groups, pick, from) && next == from + Draws(groups)
  {
    r, next := [], from;
    for i := 0 to |groups|
      invariant r + Resample(groups[i..], pick, next) == Resample(groups, pick, from)
      invariant next + Draws(groups[i..]) == from + Draws(groups)
    {
      NextPart(groups, pick, i, next);
      var drawn := DrawStratum(groups[i], pick, next);
      Associative(r, drawn, Resample(groups[i + 1..], pick, next + |groups[i]|));
      r, next := r + drawn, next + |groups[i]|;
    }
    assert groups[|groups|..] == [] && r + [] == r;
  }

  lemma {:induction false} NextPart(groups: seq<seq<seq<Pair>>>, pick: (nat, nat) -> nat, i: nat, from: nat)
    requires i < |groups|
    ensures Resample(groups[i..], pick, from) ==
            Draw(groups[i], pick, from, |groups[i]|) + Resample(groups[i + 1..], pick, from + |groups[i]|)
    ensures Draws(groups[i..]) == |groups[i]| + Draws(groups[i + 1..])
  {
    assert groups[i..][1..] == groups[i + 1..];
  }

  /** The finite values of the statistic over the first resamples, each taking up where the one before stopped drawing. */
  function Values(statistic: seq<Pair> -> Option<real>, groups: seq<seq<seq<Pair>>>, pick: (nat, nat) -> nat, n: nat): (r: seq<real>)
    ensures |r| <= n
  {
    if n == 0 then [] else
      var value := statistic(Resample(groups, pick, (n - 1) * Draws(groups)));
      Values(statistic, groups, pick, n - 1) + if value.Some? then [value.value] else []
  }

  predicate EnoughValues(values: seq<real>, repetitions: nat) { 2 <= |values| && repetitions / 2 <= |values| }

  /** An interval exists exactly when every stratum has two tasks and enough resamples have a finite value. */
  predicate HasInterval(groups: seq<seq<seq<Pair>>>, values: seq<real>, repetitions: nat) {
    groups != [] && Drawable(groups) && EnoughValues(values, repetitions)
  }

  /** The statistic is `None` where the source's value is not finite. */
  method BootstrapInterval(sample: seq<Pair>, statistic: seq<Pair> -> Option<real>, repetitions: nat, pick: (nat, nat) -> nat)
    returns (r: Option<(real, real)>)
    ensures var groups := Groups(sample, SortIds(PairStrata(sample)));
            var values := Values(statistic, groups, pick, repetitions);
            && (r.Some? <==> HasInterval(groups, values, repetitions))
            && (r.Some? ==> r.value == (Round6(Percentile(values, 0.025)), Round6(Percentile(values, 0.975))))
    ensures r.Some? ==> r.value.0 <= r.value.1
  {
    var groups := BuildGroups(sample);
    if groups == [] || !Drawable(groups) {
      return None;
    }
    var values := Repeat(statistic, groups, repetitions, pick);
    if |values| < 2 || |values| < repetitions / 2 {
      return None;
    }
    IntervalIsOrdered(values);
    r := Some((Round6(Percentile(values, 0.025)), Round6(Percentile(values, 0.975))));
  }

  lemma {:induction false} IntervalIsOrdered(values: seq<real>)
    requires values != []
    ensures Round6(Percentile(values, 0.025)) <= Round6(Percentile(values, 0.975))
  {
    PercentileMonotone(values, 0.025, 0.975);
    RoundMonotone(Percentile(values, 0.025), Percentile(values, 0.975));
  }

  method Repeat(statistic: seq<Pair> -> Option<real>, groups: seq<seq<seq<Pair>>>, repetitions: nat, pick: (nat, nat) -> nat)
    returns (values: seq<real>)
    requires Drawable(groups)
    ensures values == Values(statistic, groups, pick, repetitions)
  {
    values := [];
    var from: nat := 0;
    for i := 0 to repetitions
      invariant from == i * Draws(groups) && values == Values(statistic, groups, pick, i)
    {
      var resampled, next := ResampleOnce(groups, pick, from);
      OneMore(i, Draws(groups));
      var value := statistic(resampled);
      values := values + if value.Some? then [value.value] else [];
      from := next;
    }
  }

  lemma {:induction false} OneMore(i: nat, d: nat)
    ensures (i + 1) * d == i * d + d
  {
  }

  // ---------------------------------------------------------------- what a resample keeps

  /** A stratum's draw is a listing of as many whole clusters as were asked for. */
  lemma {:induction false} DrawIsWhole(clusters: seq<seq<Pair>>, pick: (nat, nat) -> nat, from: nat, k: nat) returns (chosen: seq<seq<Pair>>)
    requires clusters != []
    ensures |chosen| == k && Flatten(chosen) == Draw(clusters, pick, from, k)
    ensures forall c :: c in chosen ==> c in clusters
  {
    if k == 0 {
      chosen := [];
    } else {
      var before := DrawIsWhole(clusters, pick, from, k - 1);
      var c := clusters[Pick(pick, from + k - 1, |clusters|)];
      chosen := before + [c];
      FlattenSnoc(before, c);
    }
  }

  predicate AllOf(values: seq<Pair>, s: Id) {
    values == [] || (StratumOf(values[|values| - 1]) == s && AllOf(values[..|values| - 1], s))
  }

  predicate OfStratum(clusters: seq<seq<Pair>>, s: Id) {
    clusters == [] || (AllOf(clusters[0], s) && OfStratum(clusters[1..], s))
  }

  lemma {:induction false} OfStratumAt(clusters: seq<seq<Pair>>, s: Id, i: nat)
    requires OfStratum(clusters, s) && i < |clusters|
    ensures AllOf(clusters[i], s)
  {
    if i > 0 {
      OfStratumAt(clusters[1..], s, i - 1);
    }
  }

  lemma {:induction false} PairsInConcat(a: seq<Pair>, b: seq<Pair>, s: Id)
    ensures PairsIn(a + b, s) == PairsIn(a, s) + PairsIn(b, s)
  {
    if b == [] {
      assert a + b == a;
    } else {
      PairsInConcat(a, b[..|b| - 1], s);
      assert (a + b)[..|a + b| - 1] == a + b[..|b| - 1];
    }
  }

  lemma {:induction false} PairsInAll(values: seq<Pair>, s: Id, t: Id)
    requires AllOf(values, t)
    ensures PairsIn(values, s) == if s == t then values else []
  {
    if values != [] {
      PairsInAll(values[..|values| - 1], s, t);
      assert values == values[..|values| - 1] + [values[|values| - 1]];
    }
  }

  lemma {:induction false} AllOfConcat(a: seq<Pair>, b: seq<Pair>, s: Id)
    requires AllOf(a, s) && AllOf(b, s)
    ensures AllOf(a + b, s)
  {
    if b == [] {
      assert a + b == a;
    } else {
      AllOfConcat(a, b[..|b| - 1], s);
      assert (a + b)[..|a + b| - 1] == a + b[..|b| - 1];
    }
  }

  lemma {:induction false} DrawAllOf(clusters: seq<seq<Pair>>, pick: (nat, nat) -> nat, from: nat, k: nat, s: Id)
    requires OfStratum(clusters, s)
    ensures AllOf(Draw(clusters, pick, from, k), s)
  {
    if k > 0 && clusters != [] {
      var i := Pick(pick, from + k - 1, |clusters|);
      DrawAllOf(clusters, pick, from, k - 1, s);
      OfStratumAt(clusters, s, i);
      AllOfConcat(Draw(clusters, pick, from, k - 1), clusters[i], s);
    }
  }

  /** Part by part, every pair is of the part's stratum. */
  predicate Labelled(parts: seq<seq<Pair>>, strata: seq<Id>) {
    if parts == [] || strata == [] then parts == [] && strata == []
    else AllOf(parts[0], strata[0]) && Labelled(parts[1..], strata[1..])
  }

  lemma {:induction false} NoneElsewhere(parts: seq<seq<Pair>>, strata: seq<Id>, s: Id)
    requires Labelled(parts, strata) && s !in strata
    ensures PairsIn(Flatten(parts), s) == []
  {
    if parts != [] {
      NoneElsewhere(parts[1..], strata[1..], s);
      PairsInConcat(parts[0], Flatten(parts[1..]), s);
      PairsInAll(parts[0], s, strata[0]);
    }
  }

  lemma {:induction false} OwnPart(part: seq<Pair>, rest: seq<Pair>, s: Id)
    requires AllOf(part, s) && PairsIn(rest, s) == []
    ensures PairsIn(part + rest, s) == part
  {
    PairsInConcat(part, rest, s);
    PairsInAll(part, s, s);
    EmptyRight(part);
  }

  lemma {:induction false} OtherPart(part: seq<Pair>, rest: seq<Pair>, t: Id, s: Id)
    requires AllOf(part, t) && s != t
    ensures PairsIn(part + rest, s) == PairsIn(rest, s)
  {
    PairsInConcat(part, rest, s);
    PairsInAll(part, s, t);
    EmptyLeft(PairsIn(rest, s));
  }

  /** What the whole holds of a stratum is exactly the stratum's own part. */
  lemma {:induction false} PartOfStratum(parts: seq<seq<Pair>>, strata: seq<Id>, i: nat)
    requires Labelled(parts, strata) && NoRepeats(strata) && |parts| == |strata| && i < |parts|
    ensures PairsIn(Flatten(parts), strata[i]) == parts[i]
  {
    var rest := Flatten(parts[1..]);
    if i == 0 {
      NoneElsewhere(parts[1..], strata[1..], strata[0]);
      OwnPart(parts[0], rest, strata[0]);
    } else {
      assert strata[i] == strata[1..][i - 1];
      OtherPart(parts[0], rest, strata[0], strata[i]);
      PartOfStratum(parts[1..], strata[1..], i - 1);
    }
  }

  // ---------------------------------------------------------------- clusters partition a stratum

  /** Adding a pair adds it to the cluster of its task and to no other. */
  lemma {:induction false} GrowCluster(values: seq<Pair>, p: Pair, tasks: seq<Task>)
    requires NoRepeats(tasks)
    ensures multiset(Flatten(Map(ClusterOf(values + [p]), tasks))) ==
            multiset(Flatten(Map(ClusterOf(values), tasks))) + if TaskOfPair()(p) in tasks then multiset{p} else multiset{}
  {
    if tasks != [] {
      GrowCluster(values, p, tasks[1..]);
      FirstCluster(values + [p], tasks);
      FirstCluster(values, tasks);
      ClusterGrows(values, p, tasks[0]);
    }
  }

  lemma {:induction false} ClusterGrows(values: seq<Pair>, p: Pair, t: Task)
    ensures Cluster(values + [p], t) == Cluster(values, t) + if TaskOfPair()(p) == t then [p] else []
  {
  }

  lemma {:induction false} FirstCluster(values: seq<Pair>, tasks: seq<Task>)
    requires tasks != []
    ensures Flatten(Map(ClusterOf(values), tasks)) == Cluster(values, tasks[0]) + Flatten(Map(ClusterOf(values), tasks[1..]))
  {
  }

  lemma {:induction false} NoClusters(tasks: seq<Task>)
    ensures Flatten(Map(ClusterOf([]), tasks)) == []
  {
    if tasks != [] {
      NoClusters(tasks[1..]);
      assert Map(ClusterOf([]), tasks)[0] == [];
      assert Map(ClusterOf([]), tasks)[1..] == Map(ClusterOf([]), tasks[1..]);
    }
  }

  /** For any listing of the tasks, the clusters hold every pair once. */
  lemma {:induction false} ClustersPartition(values: seq<Pair>, tasks: seq<Task>)
    requires NoRepeats(tasks) && forall p :: p in values ==> TaskOfPair()(p) in tasks
    ensures multiset(Flatten(Map(ClusterOf(values), tasks))) == multiset(values)
  {
    if values == [] {
      NoClusters(tasks);
    } else {
      var before, p := values[..|values| - 1], values[|values| - 1];
      assert values == before + [p];
      ClustersPartition(before, tasks);
      GrowCluster(before, p, tasks);
    }
  }

  /** The clusters of a stratum are its distinct tasks, and together they are its pairs. */
  lemma {:induction false} StratumClusters(sample: seq<Pair>, s: Id)
    ensures |Clusters(sample, s)| == |Tasks(PairsIn(sample, s))|
    ensures multiset(Flatten(Clusters(sample, s))) == multiset(PairsIn(sample, s))
  {
    var values := PairsIn(sample, s);
    var tasks := SortTasks(Tasks(values));
    TasksFacts(values);
    SortByMultiset(ByTask(), Tasks(values));
    PermutationNoRepeats(Tasks(values), tasks);
    forall p | p in values ensures TaskOfPair()(p) in tasks {
      MapMember(TaskOfPair(), values, TaskOfPair()(p));
      MultisetMember(tasks, Tasks(values), TaskOfPair()(p));
    }
    ClustersPartition(values, tasks);
    assert |tasks| == |multiset(tasks)| == |multiset(Tasks(values))|;
  }

  // ---------------------------------------------------------------- resamples of a sample

  lemma {:induction false} AllOfSnoc(values: seq<Pair>, p: Pair, s: Id)
    requires AllOf(values, s) && StratumOf(p) == s
    ensures AllOf(values + [p], s)
  {
  }

  lemma {:induction false} PairsInAllOf(sample: seq<Pair>, s: Id)
    ensures AllOf(PairsIn(sample, s), s)
  {
    if sample != [] {
      PairsInAllOf(sample[..|sample| - 1], s);
      if StratumOf(sample[|sample| - 1]) == s {
        AllOfSnoc(PairsIn(sample[..|sample| - 1], s), sample[|sample| - 1], s);
      } else {
        assert PairsIn(sample, s) == PairsIn(sample[..|sample| - 1], s);
      }
    }
  }

  lemma {:induction false} ClusterAllOf(values: seq<Pair>, s: Id, t: Task)
    requires AllOf(values, s)
    ensures AllOf(Cluster(values, t), s)
  {
    if values != [] {
      ClusterAllOf(values[..|values| - 1], s, t);
      if TaskOfPair()(values[|values| - 1]) == t {
        AllOfSnoc(Cluster(values[..|values| - 1], t), values[|values| - 1], s);
      } else {
        assert Cluster(values, t) == Cluster(values[..|values| - 1], t);
      }
    }
  }

  lemma {:induction false} ClustersOfStratum(values: seq<Pair>, s: Id, tasks: seq<Task>)
    requires AllOf(values, s)
    ensures OfStratum(Map(ClusterOf(values), tasks), s)
  {
    if tasks != [] {
      ClustersOfStratum(values, s, tasks[1..]);
      ClusterAllOf(values, s, tasks[0]);
      var clusters := Map(ClusterOf(values), tasks);
      assert clusters[0] == Cluster(values, tasks[0]);
      assert clusters[1..] == Map(ClusterOf(values), tasks[1..]);
    }
  }

  predicate GroupedBy(groups: seq<seq<seq<Pair>>>, strata: seq<Id>) {
    if groups == [] || strata == [] then groups == [] && strata == []
    else OfStratum(groups[0], strata[0]) && GroupedBy(groups[1..], strata[1..])
  }

  lemma {:induction false} PartsLabelled(groups: seq<seq<seq<Pair>>>, strata: seq<Id>, pick: (nat, nat) -> nat, from: nat)
    requires GroupedBy(groups, strata)
    ensures Labelled(Parts(groups, pick, from), strata)
  {
    if groups != [] {
      var first, rest := Draw(groups[0], pick, from, |groups[0]|), Parts(groups[1..], pick, from + |groups[0]|);
      DrawAllOf(groups[0], pick, from, |groups[0]|, strata[0]);
      PartsLabelled(groups[1..], strata[1..], pick, from + |groups[0]|);
      LabelledCons(first, rest, strata);
    }
  }

  lemma {:induction false} LabelledCons(first: seq<Pair>, rest: seq<seq<Pair>>, strata: seq<Id>)
    requires strata != [] && AllOf(first, strata[0]) && Labelled(rest, strata[1..])
    ensures Labelled([first] + rest, strata)
  {
    assert ([first] + rest)[1..] == rest;
  }

  lemma {:induction false} PartIsDraw(groups: seq<seq<seq<Pair>>>, pick: (nat, nat) -> nat, from: nat, i: nat) returns (start: nat)
    requires i < |groups|
    ensures Parts(groups, pick, from)[i] == Draw(groups[i], pick, start, |groups[i]|)
  {
    if i == 0 {
      start := from;
    } else {
      start := PartIsDraw(groups[1..], pick, from + |groups[0]|, i - 1);
    }
  }

  lemma {:induction false} GroupsGrouped(sample: seq<Pair>, strata: seq<Id>)
    ensures GroupedBy(Groups(sample, strata), strata)
  {
    if strata != [] {
      var values := PairsIn(sample, strata[0]);
      GroupsGrouped(sample, strata[1..]);
      PairsInAllOf(sample, strata[0]);
      ClustersOfStratum(values, strata[0], SortTasks(Tasks(values)));
      assert Groups(sample, strata)[1..] == Groups(sample, strata[1..]);
    }
  }

  /** Every resample holds, of every stratum, as many whole task clusters as the sample has tasks there. */
  lemma {:induction false} ResampleIsStratified(sample: seq<Pair>, strata: seq<Id>, pick: (nat, nat) -> nat, from: nat, i: nat)
    returns (chosen: seq<seq<Pair>>)
    requires NoRepeats(strata) && i < |strata| && Clusters(sample, strata[i]) != []
    ensures PairsIn(Resample(Groups(sample, strata), pick, from), strata[i]) == Flatten(chosen)
    ensures |chosen| == |Tasks(PairsIn(sample, strata[i]))|
    ensures forall c :: c in chosen ==> c in Clusters(sample, strata[i])
  {
    var groups := Groups(sample, strata);
    GroupsGrouped(sample, strata);
    MapAt(ClustersOf(sample), strata, i);
    PartsLabelled(groups, strata, pick, from);
    PartOfStratum(Parts(groups, pick, from), strata, i);
    var start := PartIsDraw(groups, pick, from, i);
    chosen := DrawIsWhole(groups[i], pick, start, |groups[i]|);
    StratumClusters(sample, strata[i]);
  }

  /** The strata a bootstrap goes through are distinct, so the above holds of each of its resamples. */
  lemma {:induction false} StrataAreDistinct(sample: seq<Pair>)
    ensures NoRepeats(SortIds(PairStrata(sample)))
  {
    FirstStrata(sample);
    SortByMultiset(ByName(), PairStrata(sample));
    PermutationNoRepeats(PairStrata(sample), SortIds(PairStrata(sample)));
  }

  lemma {:induction false} FirstStrata(sample: seq<Pair>)
    ensures NoRepeats(PairStrata(sample))
  {
    if sample != [] {
      var before, s := PairStrata(sample[..|sample| - 1]), StratumOf(sample[|sample| - 1]);
      FirstStrata(sample[..|sample| - 1]);
      assert NoRepeats([s]);
      if s !in before {
        ConcatNoRepeats(before, [s]);
      }
    }
  }
}

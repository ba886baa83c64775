/** Eligibility, gates and the decision of `compare`, and what a passing decision implies. */
module BenchDecision {
  import opened Wrappers
  import opened Listings
  import opened BenchRecords
  import opened BenchOrders
  import opened BenchPlan
  import opened BenchSeeding
  import opened BenchEvents
  import opened BenchPairing
  import opened BenchRuns
  import opened Wilson

  // ---------------------------------------------------------------- task clusters

  datatype Task = Task(stratum: Id, dataset: Id, task: Id)

  function TaskOfPair(): (r: Pair -> Task) {
    (p: Pair) => Task(p.baseline.assignment.common.stratum, p.baseline.assignment.common.dataset, p.baseline.assignment.common.task)
  }

  /** The tasks of a sample, each once, in order of first appearance. */
  function Tasks(sample: seq<Pair>): (r: seq<Task>) {
    if sample == [] then [] else
      var before, task := Tasks(sample[..|sample| - 1]), TaskOfPair()(sample[|sample| - 1]);
      if task in before then before else before + [task]
  }

  function Cluster(sample: seq<Pair>, task: Task): (r: seq<Pair>) {
    if sample == [] then [] else
      Cluster(sample[..|sample| - 1], task) + if TaskOfPair()(sample[|sample| - 1]) == task then [sample[|sample| - 1]] else []
  }

  function AnyHarm(values: seq<Pair>): (r: bool) {
    values != [] && (values[0].cigar.metrics.harm || AnyHarm(values[1..]))
  }

  /** How many of the tasks saw harm in any repetition. */
  function HarmCount(sample: seq<Pair>, tasks: seq<Task>): (r: nat)
    ensures r <= |tasks|
  {
    if tasks == [] then 0 else
      HarmCount(sample, tasks[..|tasks| - 1]) + if AnyHarm(Cluster(sample, tasks[|tasks| - 1])) then 1 else 0
  }

  function ClusterAt(clusters: map<Task, seq<Pair>>, task: Task): (r: seq<Pair>) {
    if task in clusters then clusters[task] else []
  }

  method GroupTasks(sample: seq<Pair>) returns (clusters: map<Task, seq<Pair>>, keys: seq<Task>)
    ensures keys == Tasks(sample)
    ensures forall t :: ClusterAt(clusters, t) == Cluster(sample, t)
  {
    clusters, keys := map[], [];
    for i := 0 to |sample|
      invariant keys == Tasks(sample[..i])
      invariant forall t :: ClusterAt(clusters, t) == Cluster(sample[..i], t)
    {
      assert sample[..i + 1][..i] == sample[..i];
      var task := TaskOfPair()(sample[i]);
      clusters := clusters[task := ClusterAt(clusters, task) + [sample[i]]];
      keys := if task in keys then keys else keys + [task];
    }
    assert sample[..|sample|] == sample;
  }

  /** Repetitions of a task are one cluster, harmed when any repetition was. */
  method HarmClusters(sample: seq<Pair>) returns (harms: nat, count: nat)
    ensures count == |Tasks(sample)| && harms == HarmCount(sample, Tasks(sample))
  {
    var clusters, keys := GroupTasks(sample);
    count := |keys|;
    harms := CountHarmed(sample, clusters, keys);
  }

  method CountHarmed(ghost sample: seq<Pair>, clusters: map<Task, seq<Pair>>, keys: seq<Task>) returns (harms: nat)
    requires forall t :: ClusterAt(clusters, t) == Cluster(sample, t)
    ensures harms == HarmCount(sample, keys)
  {
    harms := 0;
    for i := 0 to |keys|
      invariant harms == HarmCount(sample, keys[..i])
    {
      assert keys[..i + 1][..i] == keys[..i];
      if AnyHarm(ClusterAt(clusters, keys[i])) {
        harms := harms + 1;
      }
    }
    assert keys[..|keys|] == keys;
  }

  lemma {:induction false} TasksFacts(sample: seq<Pair>)
    ensures NoRepeats(Tasks(sample))
    ensures forall t :: t in Tasks(sample) <==> t in Map(TaskOfPair(), sample)
  {
    if sample != [] {
      var before, p := sample[..|sample| - 1], sample[|sample| - 1];
      TasksFacts(before);
      assert sample == before + [p];
      MapConcat(TaskOfPair(), before, [p]);
      assert Map(TaskOfPair(), [p]) == [TaskOfPair()(p)];
      assert NoRepeats([TaskOfPair()(p)]);
      if TaskOfPair()(p) !in Tasks(before) {
        ConcatNoRepeats(Tasks(before), [TaskOfPair()(p)]);
      }
    }
  }

  // ---------------------------------------------------------------- gates

  datatype Status = Pass | Fail | Insufficient | NotApplicable

  /** Interval ends and values the gates compare; a missing interval fails every bound. */
  datatype Estimates = Estimates(
    medianLower: Option<real>, p25Lower: Option<real>, cost: Option<real>, costLower: Option<real>,
    successLower: Option<real>, recallLower: Option<real>, precisionLower: Option<real>,
    staleUpper: Option<real>, prohibited: real)

  datatype Summary = Summary(estimates: Estimates, harmUpper: real, unauthorized: nat)

  function GateStatus(condition: bool, eligible: bool): (r: Status) {
    if !eligible then Insufficient else if condition then Pass else Fail
  }

  predicate AtLeast(x: Option<real>, bound: real) { x.Some? && x.value >= bound }

  predicate Below(x: Option<real>, bound: real) { x.Some? && x.value < bound }

  function Gates(s: Summary, eligible: bool, strong: bool): (r: seq<Status>) {
    var e := s.estimates;
    [ GateStatus(AtLeast(e.medianLower, 40.0), eligible),
      GateStatus(AtLeast(e.p25Lower, 25.0), eligible),
      GateStatus(e.cost.Some? && AtLeast(e.costLower, 10.0), eligible),
      GateStatus(AtLeast(e.successLower, -2.0), eligible),
      GateStatus(AtLeast(e.recallLower, 99.0), eligible),
      GateStatus(AtLeast(e.precisionLower, 90.0), eligible),
      GateStatus(s.harmUpper < 1.0, eligible),
      GateStatus(Below(e.staleUpper, 1.0), eligible),
      GateStatus(e.prohibited == 0.0, eligible),
      GateStatus(s.unauthorized == 0, eligible),
      if strong then
        GateStatus((AtLeast(e.medianLower, 30.0) && AtLeast(e.successLower, -1.0)) || AtLeast(e.successLower, 5.0), eligible)
      else NotApplicable ]
  }

  function Decide(statuses: seq<Status>): (r: Status) {
    if Fail in statuses then Fail else if Insufficient in statuses then Insufficient else Pass
  }

  // ---------------------------------------------------------------- comparison

  datatype Reason =
    | NonQualification | MissingAttestation | StrataIncomplete | FewPairs | FewTasks | HostVariance | NotBalanced | FewRepetitions

  /** What the comparison is given beside the pairs: estimators by scope, and the upper end of the harm interval. */
  datatype Setting = Setting(
    required: Inventory, protected: seq<Id>, attested: bool, strong: bool, repetitions: nat,
    estimate: (Option<Id>, seq<Pair>) -> Estimates, harmUpper: (nat, nat) -> real)

  function StratumOf(p: Pair): (r: Id) { p.baseline.assignment.common.stratum }

  function PairsIn(pairs: seq<Pair>, s: Id): (r: seq<Pair>) {
    if pairs == [] then [] else
      PairsIn(pairs[..|pairs| - 1], s) + if StratumOf(pairs[|pairs| - 1]) == s then [pairs[|pairs| - 1]] else []
  }

  function PairStrata(pairs: seq<Pair>): (r: seq<Id>) {
    if pairs == [] then [] else
      var before, s := PairStrata(pairs[..|pairs| - 1]), StratumOf(pairs[|pairs| - 1]);
      if s in before then before else before + [s]
  }

  function PairsAt(groups: map<Id, seq<Pair>>, s: Id): (r: seq<Pair>) {
    if s in groups then groups[s] else []
  }

  method GroupStrata(pairs: seq<Pair>) returns (groups: map<Id, seq<Pair>>, strata: seq<Id>)
    ensures strata == PairStrata(pairs)
    ensures forall s :: PairsAt(groups, s) == PairsIn(pairs, s)
  {
    groups, strata := map[], [];
    for i := 0 to |pairs|
      invariant strata == PairStrata(pairs[..i])
      invariant forall s :: PairsAt(groups, s) == PairsIn(pairs[..i], s)
    {
      assert pairs[..i + 1][..i] == pairs[..i];
      var s := StratumOf(pairs[i]);
      groups := groups[s := PairsAt(groups, s) + [pairs[i]]];
      strata := if s in strata then strata else strata + [s];
    }
    assert pairs[..|pairs|] == pairs;
  }

  function Unauthorized(sample: seq<Pair>): (r: nat) {
    if sample == [] then 0 else sample[0].cigar.metrics.unauthorized + Unauthorized(sample[1..])
  }

  function Summarise(setting: Setting, scope: Option<Id>, sample: seq<Pair>): (r: Summary) {
    var count := |Tasks(sample)|;
    var harms := HarmCount(sample, Tasks(sample));
    Summary(setting.estimate(scope, sample),
            setting.harmUpper(harms, count),
            Unauthorized(sample))
  }

  function CountOrder(values: seq<Pair>, order: int): (r: nat) {
    if values == [] then 0 else
      CountOrder(values[..|values| - 1], order) + if values[|values| - 1].baseline.assignment.order == order then 1 else 0
  }

  predicate Balanced(values: seq<Pair>) {
    -1 <= CountOrder(values, 1) - CountOrder(values, 2) <= 1
  }

  predicate AllQualify(pairs: seq<Pair>) {
    forall p :: p in pairs ==> p.baseline.assignment.common.evidence == Qualification
  }

  predicate SteadyHost(pairs: seq<Pair>) {
    forall p :: p in pairs ==> p.baseline.metrics.variance < 0.05 && p.cigar.metrics.variance < 0.05
  }

  predicate AllBalanced(pairs: seq<Pair>, strata: seq<Id>) {
    forall s :: s in strata ==> Balanced(PairsIn(pairs, s))
  }

  predicate EnoughPairs(pairs: seq<Pair>, strata: seq<Id>) {
    forall s :: s in strata ==> |PairsIn(pairs, s)| >= 30
  }

  predicate EnoughTasks(pairs: seq<Pair>, strata: seq<Id>) {
    forall s :: s in strata ==> |Tasks(PairsIn(pairs, s))| >= 30
  }

  predicate SameStrata(strata: seq<Id>, required: seq<Id>) {
    (set s | s in strata) == (set s | s in required)
  }

  function When(condition: bool, reason: Reason): (r: seq<Reason>) { if condition then [reason] else [] }

  function ReasonList(smoke: bool, unattested: bool, incomplete: bool, fewPairs: bool, fewTasks: bool,
                   variance: bool, unbalanced: bool, fewRepetitions: bool): (r: seq<Reason>)
  {
    When(smoke, NonQualification) + When(!smoke && unattested, MissingAttestation) + When(incomplete, StrataIncomplete)
    + When(fewPairs, FewPairs) + When(fewTasks, FewTasks) + When(variance, HostVariance)
    + When(unbalanced, NotBalanced) + When(fewRepetitions, FewRepetitions)
  }

  /** The reasons a comparison is not eligible, in the order they are collected. */
  function Reasons(setting: Setting, pairs: seq<Pair>): (r: seq<Reason>) {
    var strata := PairStrata(pairs);
    ReasonList(!AllQualify(pairs), !setting.attested, !SameStrata(strata, setting.required),
            !EnoughPairs(pairs, strata), !EnoughTasks(pairs, strata), !SteadyHost(pairs),
            !AllBalanced(pairs, strata), setting.repetitions < 10_000)
  }

  function StratumGates(setting: Setting, pairs: seq<Pair>, eligible: bool, s: Id): (r: seq<Status>) {
    var values := PairsIn(pairs, s);
    Gates(Summarise(setting, Some(s), values), eligible && |values| >= 30, setting.strong)
  }

  function ProtectedStatuses(setting: Setting, pairs: seq<Pair>, eligible: bool, protected: seq<Id>): (r: seq<Status>) {
    if protected == [] then [] else
      var before, s := ProtectedStatuses(setting, pairs, eligible, protected[..|protected| - 1]), protected[|protected| - 1];
      if s in PairStrata(pairs) then before + StratumGates(setting, pairs, eligible, s) else before
  }

  function DecisionWhen(setting: Setting, pairs: seq<Pair>, eligible: bool): (r: Status) {
    Decide(Gates(Summarise(setting, None, pairs), eligible, setting.strong)
           + ProtectedStatuses(setting, pairs, eligible, setting.protected))
  }

  function Decision(setting: Setting, pairs: seq<Pair>): (r: Status) {
    DecisionWhen(setting, pairs, Reasons(setting, pairs) == [])
  }

  // ---------------------------------------------------------------- theorems

  lemma {:induction false} GatesWhenIneligible(s: Summary, strong: bool)
    ensures Insufficient in Gates(s, false, strong) && Fail !in Gates(s, false, strong)
  {
    assert Gates(s, false, strong)[0] == Insufficient;
  }

  lemma {:induction false} GatesWhenEligible(s: Summary, strong: bool)
    ensures Insufficient !in Gates(s, true, strong)
  {
  }

  lemma {:induction false} ProtectedWhenIneligible(setting: Setting, pairs: seq<Pair>, protected: seq<Id>)
    ensures Fail !in ProtectedStatuses(setting, pairs, false, protected)
  {
    if protected != [] {
      var s := protected[|protected| - 1];
      ProtectedWhenIneligible(setting, pairs, protected[..|protected| - 1]);
      GatesWhenIneligible(Summarise(setting, Some(s), PairsIn(pairs, s)), setting.strong);
    }
  }

  lemma {:induction false} ProtectedWhenEligible(setting: Setting, pairs: seq<Pair>, protected: seq<Id>)
    requires EnoughPairs(pairs, PairStrata(pairs))
    ensures Insufficient !in ProtectedStatuses(setting, pairs, true, protected)
  {
    if protected != [] {
      var s := protected[|protected| - 1];
      ProtectedWhenEligible(setting, pairs, protected[..|protected| - 1]);
      GatesWhenEligible(Summarise(setting, Some(s), PairsIn(pairs, s)), setting.strong);
    }
  }

  /** Any reason forces exactly `insufficient_evidence`; with none the decision is pass or fail. */
  lemma {:induction false} InsufficientIffReasons(setting: Setting, pairs: seq<Pair>)
    ensures Decision(setting, pairs) == Insufficient <==> Reasons(setting, pairs) != []
  {
    var overall := Summarise(setting, None, pairs);
    if Reasons(setting, pairs) != [] {
      GatesWhenIneligible(overall, setting.strong);
      ProtectedWhenIneligible(setting, pairs, setting.protected);
    } else {
      EligibleStrata(setting, pairs);
      GatesWhenEligible(overall, setting.strong);
      ProtectedWhenEligible(setting, pairs, setting.protected);
    }
  }

  lemma {:induction false} EligibleStrata(setting: Setting, pairs: seq<Pair>)
    requires Reasons(setting, pairs) == []
    ensures EnoughPairs(pairs, PairStrata(pairs))
    ensures forall s :: s in setting.required <==> s in PairStrata(pairs)
  {
    SameStrataMembers(PairStrata(pairs), setting.required);
  }

  lemma {:induction false} SameStrataMembers(strata: seq<Id>, required: seq<Id>)
    ensures SameStrata(strata, required) <==> forall s :: s in required <==> s in strata
  {
    var a, b := (set s | s in strata), (set s | s in required);
    assert forall s :: s in a <==> s in strata;
    assert forall s :: s in b <==> s in required;
    if a == b {
      forall s ensures s in required <==> s in strata {
        assert s in a <==> s in b;
      }
    }
  }

  // ---------------------------------------------------------------- what a pass implies

  /** The upper ends are those of the Wilson interval, for the square roots the source takes. */
  ghost predicate IsWilson(upper: (nat, nat) -> real, root: (nat, nat) -> real) {
    forall harms: nat, count: nat {:trigger root(harms, count)} :: 0 < count && harms <= count ==>
      Rooted(harms, count, root(harms, count)) && upper(harms, count) == Interval(harms, count, root(harms, count)).1
  }

  /** An upper end below one percent needs many tasks. */
  ghost predicate NeedsManyTasks(upper: (nat, nat) -> real) {
    forall harms: nat, count: nat :: 0 < count && harms <= count && upper(harms, count) < 1.0 ==> count >= 381
  }

  lemma {:induction false} WilsonNeedsManyTasks(upper: (nat, nat) -> real, root: (nat, nat) -> real)
    requires IsWilson(upper, root)
    ensures NeedsManyTasks(upper)
  {
    forall harms: nat, count: nat | 0 < count && harms <= count && upper(harms, count) < 1.0 ensures count >= 381 {
      BelowOnePercentNeedsTasks(harms, count, root(harms, count));
    }
  }

  lemma {:induction false} ProtectedMember(setting: Setting, pairs: seq<Pair>, eligible: bool, protected: seq<Id>, s: Id, status: Status)
    requires s in protected && s in PairStrata(pairs) && status in StratumGates(setting, pairs, eligible, s)
    ensures status in ProtectedStatuses(setting, pairs, eligible, protected)
  {
    if s != protected[|protected| - 1] {
      ProtectedMember(setting, pairs, eligible, protected[..|protected| - 1], s, status);
    }
  }

  lemma {:induction false} HarmGate(setting: Setting, pairs: seq<Pair>, s: Id)
    requires NeedsManyTasks(setting.harmUpper) && |PairsIn(pairs, s)| >= 30
    requires Fail !in StratumGates(setting, pairs, true, s)
    ensures |Tasks(PairsIn(pairs, s))| >= 381
  {
    var values := PairsIn(pairs, s);
    var summary := Summarise(setting, Some(s), values);
    assert Gates(summary, true, setting.strong)[6] == GateStatus(summary.harmUpper < 1.0, true);
    assert summary.harmUpper == setting.harmUpper(HarmCount(values, Tasks(values)), |Tasks(values)|);
    HasTasks(values);
  }

  lemma {:induction false} HasTasks(values: seq<Pair>)
    requires values != []
    ensures Tasks(values) != []
  {
  }

  /** A pass needs at least 381 distinct tasks in every protected stratum. */
  lemma {:induction false} PassNeedsTasks(setting: Setting, root: (nat, nat) -> real, pairs: seq<Pair>, s: Id)
    requires IsWilson(setting.harmUpper, root) && s in setting.protected && s in setting.required
    requires Decision(setting, pairs) == Pass
    ensures |Tasks(PairsIn(pairs, s))| >= 381
  {
    WilsonNeedsManyTasks(setting.harmUpper, root);
    InsufficientIffReasons(setting, pairs);
    EligibleStrata(setting, pairs);
    if Fail in StratumGates(setting, pairs, true, s) {
      ProtectedMember(setting, pairs, true, setting.protected, s, Fail);
    }
    HarmGate(setting, pairs, s);
  }

  // ---------------------------------------------------------------- balance is never the reason

  lemma {:induction false} BalanceIsTally(pairs: seq<Pair>, s: Id)
    ensures CountOrder(PairsIn(pairs, s), 1) - CountOrder(PairsIn(pairs, s), 2) == Tally(PairSign(s), pairs)
  {
    if pairs != [] {
      var before, p := pairs[..|pairs| - 1], pairs[|pairs| - 1];
      BalanceIsTally(before, s);
      assert pairs == before + [p];
      TallyConcat(PairSign(s), before, [p]);
      assert Tally(PairSign(s), [p]) == PairSign(s)(p) + Tally(PairSign(s), []);
      if StratumOf(p) == s {
        CountSnoc(PairsIn(before, s), p, 1);
        CountSnoc(PairsIn(before, s), p, 2);
      } else {
        assert PairsIn(pairs, s) == PairsIn(before, s);
      }
    }
  }

  lemma {:induction false} CountSnoc(values: seq<Pair>, p: Pair, order: int)
    ensures CountOrder(values + [p], order) == CountOrder(values, order) + if p.baseline.assignment.order == order then 1 else 0
  {
  }

  /** Past validation, seed verification, binding and pairing, `treatment_order_not_balanced` is unreachable. */
  lemma {:induction false} BalanceIsNeverTheReason(
    shuffle: Shuffle, hash: Hash, events: seq<Event>, plan: Plan, ds: seq<Dataset>, seed: Seed, n: nat,
    pairs: seq<Pair>, setting: Setting)
    requires DistinctIds(ds) && ValidPlan(hash, plan) && FromManifest(plan.unsigned.assignments, ds)
    requires Seeded(shuffle, plan.unsigned.assignments, ds, seed, n)
    requires Bound(events, plan) && Matched(Filter(PostWarm(), events)) && Pairing(events, pairs)
    ensures NotBalanced !in Reasons(setting, pairs)
  {
    ChecksImplyAccepted(shuffle, hash, events, plan, ds, seed, n);
    AllStrataBalanced(shuffle, events, plan.unsigned.assignments, ds, seed, n, pairs);
    BalancedReasons(setting, pairs);
  }

  lemma {:induction false} BalancedReasons(setting: Setting, pairs: seq<Pair>)
    requires AllBalanced(pairs, PairStrata(pairs))
    ensures NotBalanced !in Reasons(setting, pairs)
  {
    var strata := PairStrata(pairs);
    Unbalanced(!AllQualify(pairs), !setting.attested, !SameStrata(strata, setting.required),
               !EnoughPairs(pairs, strata), !EnoughTasks(pairs, strata), !SteadyHost(pairs), setting.repetitions < 10_000);
  }

  lemma {:induction false} AllStrataBalanced(
    shuffle: Shuffle, events: seq<Event>, xs: seq<Assignment>, ds: seq<Dataset>, seed: Seed, n: nat, pairs: seq<Pair>)
    requires Accepted(shuffle, events, xs, ds, seed, n)
    requires Pairing(events, pairs) && Filter(PostWarm(), events) == events
    ensures AllBalanced(pairs, PairStrata(pairs))
  {
    forall s | s in PairStrata(pairs) ensures Balanced(PairsIn(pairs, s)) {
      AcceptedIsCounterbalanced(shuffle, events, xs, ds, seed, n, pairs, s);
      BalanceIsTally(pairs, s);
    }
  }

  lemma {:induction false} Unbalanced(
    smoke: bool, unattested: bool, incomplete: bool, fewPairs: bool, fewTasks: bool, variance: bool, fewRepetitions: bool)
    ensures NotBalanced !in ReasonList(smoke, unattested, incomplete, fewPairs, fewTasks, variance, false, fewRepetitions)
  {
  }
}

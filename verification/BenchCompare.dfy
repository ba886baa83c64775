/** `compare`: everything it checks before it decides, and the loops that decide. */
module BenchCompare {
  import opened Wrappers
  import opened Listings
  import opened BenchRecords
  import opened BenchOrders
  import opened BenchPlan
  import opened BenchSeeding
  import opened BenchEvents
  import opened BenchPairing
  import opened BenchAttestation
  import opened BenchDecision

  method CheckOrder(values: seq<Pair>) returns (ok: bool)
    ensures ok == Balanced(values)
  {
    var first, second := 0, 0;
    for i := 0 to |values|
      invariant first == CountOrder(values[..i], 1) && second == CountOrder(values[..i], 2)
    {
      assert values[..i + 1][..i] == values[..i];
      if values[i].baseline.assignment.order == 1 {
        first := first + 1;
      } else if values[i].baseline.assignment.order == 2 {
        second := second + 1;
      }
    }
    assert values[..|values|] == values;
    ok := -1 <= first - second <= 1;
  }

  /** The smallest stratum by pairs and by tasks, and whether every stratum is balanced. */
  method CheckStrata(pairs: seq<Pair>, groups: map<Id, seq<Pair>>, strata: seq<Id>) returns (pairsOk: bool, tasksOk: bool, balanced: bool)
    requires forall s :: PairsAt(groups, s) == PairsIn(pairs, s)
    ensures pairsOk == EnoughPairs(pairs, strata)
    ensures tasksOk == EnoughTasks(pairs, strata)
    ensures balanced == AllBalanced(pairs, strata)
  {
    pairsOk, tasksOk, balanced := true, true, true;
    for i := 0 to |strata|
      invariant pairsOk == EnoughPairs(pairs, strata[..i])
      invariant tasksOk == EnoughTasks(pairs, strata[..i])
      invariant balanced == AllBalanced(pairs, strata[..i])
    {
      Extends(pairs, strata, i);
      var values := PairsAt(groups, strata[i]);
      var ok := CheckOrder(values);
      var harms, tasks := HarmClusters(values);
      pairsOk := pairsOk && |values| >= 30;
      tasksOk := tasksOk && tasks >= 30;
      balanced := balanced && ok;
    }
    assert strata[..|strata|] == strata;
  }

  lemma {:induction false} Extends(pairs: seq<Pair>, strata: seq<Id>, i: nat)
    requires i < |strata|
    ensures EnoughPairs(pairs, strata[..i + 1]) <==> EnoughPairs(pairs, strata[..i]) && |PairsIn(pairs, strata[i])| >= 30
    ensures EnoughTasks(pairs, strata[..i + 1]) <==> EnoughTasks(pairs, strata[..i]) && |Tasks(PairsIn(pairs, strata[i]))| >= 30
    ensures AllBalanced(pairs, strata[..i + 1]) <==> AllBalanced(pairs, strata[..i]) && Balanced(PairsIn(pairs, strata[i]))
  {
  }

  method SummariseSample(setting: Setting, scope: Option<Id>, sample: seq<Pair>) returns (r: Summary)
    ensures r == Summarise(setting, scope, sample)
  {
    var harms, count := HarmClusters(sample);
    var unauthorized := 0;
    for i := 0 to |sample|
      invariant unauthorized + Unauthorized(sample[i..]) == Unauthorized(sample)
    {
      assert sample[i..][1..] == sample[i + 1..];
      unauthorized := unauthorized + sample[i].cigar.metrics.unauthorized;
    }
    r := Summary(setting.estimate(scope, sample), setting.harmUpper(harms, count), unauthorized);
  }

  method ProtectedGates(setting: Setting, pairs: seq<Pair>, groups: map<Id, seq<Pair>>, strata: seq<Id>, eligible: bool)
    returns (statuses: seq<Status>)
    requires strata == PairStrata(pairs) && forall s :: PairsAt(groups, s) == PairsIn(pairs, s)
    ensures statuses == ProtectedStatuses(setting, pairs, eligible, setting.protected)
  {
    statuses := [];
    var protected := setting.protected;
    for i := 0 to |protected|
      invariant statuses == ProtectedStatuses(setting, pairs, eligible, protected[..i])
    {
      assert protected[..i + 1][..i] == protected[..i];
      if protected[i] in strata {
        var gates := GatesOf(setting, pairs, groups, eligible, protected[i]);
        statuses := statuses + gates;
      }
    }
    assert protected[..|protected|] == protected;
  }

  method GatesOf(setting: Setting, pairs: seq<Pair>, groups: map<Id, seq<Pair>>, eligible: bool, s: Id) returns (r: seq<Status>)
    requires PairsAt(groups, s) == PairsIn(pairs, s)
    ensures r == StratumGates(setting, pairs, eligible, s)
  {
    var values := PairsAt(groups, s);
    var summary := SummariseSample(setting, Some(s), values);
    r := Gates(summary, eligible && |values| >= 30, setting.strong);
  }

  // ---------------------------------------------------------------- the whole comparison

  /** The inventories and estimators of a comparison. */
  datatype Rules = Rules(
    required: Inventory, protected: seq<Id>, strong: set<Id>,
    estimate: (Option<Id>, seq<Pair>) -> Estimates, harmUpper: (nat, nat) -> real)

  datatype Report = Report(replicates: nat, attestation: Check, reasons: seq<Reason>, decision: Status)

  /** The baseline events that are compared. */
  function Compared(events: seq<Event>): (r: seq<Event>) { Filter(IsBaseline(), Filter(PostWarm(), events)) }

  lemma {:induction false} ComparedEvent(events: seq<Event>, e: Event)
    ensures e in Compared(events) <==> e in events && !e.warmup && e.assignment.treatment == Baseline
  {
    FilterMember(PostWarm(), events, e);
    FilterMember(IsBaseline(), Filter(PostWarm(), events), e);
  }

  predicate CommittedTo(base: seq<Event>, commitment: Digest) {
    forall e :: e in base ==> e.seedCommitment == commitment
  }

  /** One run, comparator, pin set, environment and plan. */
  predicate SamePool(e: Event, f: Event) {
    var c, d := e.assignment.common, f.assignment.common;
    && c.run == d.run && c.baseline == d.baseline && c.pins == d.pins && c.environment == d.environment
    && e.assignmentDigest == f.assignmentDigest
  }

  predicate Pooled(base: seq<Event>) {
    forall e :: e in base ==> SamePool(base[0], e)
  }

  /** A token reduction is a fraction of the baseline's tokens. */
  predicate PositiveTokens(base: seq<Event>) {
    forall e :: e in base ==> e.metrics.tokens > 0
  }

  predicate Poolable(base: seq<Event>, commitment: Digest) {
    base != [] && CommittedTo(base, commitment) && Pooled(base) && PositiveTokens(base)
  }

  predicate KeyAccepted(hash: Hash, events: seq<Event>, seed: Seed, key: Option<Key>) {
    CheckFor(hash, key, events) != Refused && key != Some(seed)
  }

  /** The stream is bound to a checked bundle and pairs completely. */
  ghost predicate Streamed(hash: Hash, b: Bundle, events: seq<Event>) {
    Bundled(hash, b) && Loadable(hash, events) && Bound(events, b.plan) && Matched(Filter(PostWarm(), events))
  }

  /** Everything that must hold for `compare` to write a report. */
  ghost predicate Comparable(shuffle: Shuffle, hash: Hash, b: Bundle, events: seq<Event>, seed: Seed, key: Option<Key>, repetitions: int) {
    && 100 <= repetitions <= 1_000_000
    && Streamed(hash, b, events) && Opened(shuffle, hash, b, seed)
    && Poolable(Compared(events), hash.seed(seed)) && KeyAccepted(hash, events, seed, key)
  }

  function SettingFor(rules: Rules, check: Check, comparator: Id, repetitions: nat): (r: Setting) {
    Setting(rules.required, rules.protected, check.Attested?, comparator in rules.strong, repetitions, rules.estimate, rules.harmUpper)
  }

  /** What the checks leave: the pairs, the replicate count and the outcome of the attestations. */
  datatype Admitted = Admitted(pairs: seq<Pair>, replicates: nat, attestation: Check)

  ghost predicate Admits(shuffle: Shuffle, hash: Hash, b: Bundle, events: seq<Event>, seed: Seed, key: Option<Key>, a: Admitted) {
    && Pairing(events, a.pairs) && a.pairs != []
    && Seeded(shuffle, b.plan.unsigned.assignments, b.ds, seed, a.replicates)
    && a.attestation == CheckFor(hash, key, events)
  }

  /** The refusals of `compare`. */
  method Admit(shuffle: Shuffle, hash: Hash, b: Bundle, events: seq<Event>, seed: Seed, key: Option<Key>, repetitions: int)
    returns (r: Option<Admitted>)
    ensures r.Some? <==> Comparable(shuffle, hash, b, events, seed, key, repetitions)
    ensures r.Some? ==> Admits(shuffle, hash, b, events, seed, key, r.value)
  {
    if !(100 <= repetitions <= 1_000_000) {
      return None;
    }
    var pairs := PairStream(hash, b, events);
    if pairs.None? {
      return None;
    }
    var replicates := OpenSeed(shuffle, hash, b, seed);
    if replicates.None? {
      return None;
    }
    var ok := CheckPool(events, pairs.value, hash.seed(seed));
    var check := VerifyAttestations(hash, events, key);
    if !ok || check == Refused || key == Some(seed) {
      return None;
    }
    r := Some(Admitted(pairs.value, replicates.value, check));
  }

  function SettingOf(rules: Rules, a: Admitted, repetitions: nat): (r: Setting)
    requires a.pairs != []
  {
    SettingFor(rules, a.attestation, a.pairs[0].baseline.assignment.common.baseline, repetitions)
  }

  /** `compare`: a report exactly for comparable runs, deciding over the pairs of the stream. */
  method Compare(shuffle: Shuffle, hash: Hash, rules: Rules, b: Bundle, events: seq<Event>, seed: Seed, key: Option<Key>, repetitions: int)
    returns (r: Option<Report>, admitted: Option<Admitted>)
    ensures r.Some? <==> Comparable(shuffle, hash, b, events, seed, key, repetitions)
    ensures r.Some? ==> admitted.Some? && Admits(shuffle, hash, b, events, seed, key, admitted.value)
    ensures r.Some? ==> r.value == ReportOn(SettingOf(rules, admitted.value, repetitions), admitted.value)
  {
    admitted := Admit(shuffle, hash, b, events, seed, key, repetitions);
    if admitted.None? {
      return None, None;
    }
    var setting := SettingOf(rules, admitted.value, repetitions);
    var report := JudgePairs(setting, admitted.value);
    r := Some(report);
  }

  function ReportOn(setting: Setting, a: Admitted): (r: Report) {
    Report(a.replicates, a.attestation, Reasons(setting, a.pairs), Decision(setting, a.pairs))
  }

  /** The part of `compare` that turns pairs into reasons and a decision. */
  method JudgePairs(setting: Setting, a: Admitted) returns (r: Report)
    ensures r == ReportOn(setting, a)
  {
    var groups, strata := GroupStrata(a.pairs);
    var reasons := CollectReasons(setting, a.pairs, groups, strata);
    var decision := DecidePairs(setting, a.pairs, groups, strata, reasons == []);
    r := Report(a.replicates, a.attestation, reasons, decision);
  }

  method CollectReasons(setting: Setting, pairs: seq<Pair>, groups: map<Id, seq<Pair>>, strata: seq<Id>) returns (reasons: seq<Reason>)
    requires strata == PairStrata(pairs) && forall s :: PairsAt(groups, s) == PairsIn(pairs, s)
    ensures reasons == Reasons(setting, pairs)
  {
    var pairsOk, tasksOk, balanced := CheckStrata(pairs, groups, strata);
    reasons := ReasonList(!AllQualify(pairs), !setting.attested, !SameStrata(strata, setting.required),
                          !pairsOk, !tasksOk, !SteadyHost(pairs), !balanced, setting.repetitions < 10_000);
  }

  method DecidePairs(setting: Setting, pairs: seq<Pair>, groups: map<Id, seq<Pair>>, strata: seq<Id>, eligible: bool) returns (decision: Status)
    requires strata == PairStrata(pairs) && forall s :: PairsAt(groups, s) == PairsIn(pairs, s)
    ensures decision == DecisionWhen(setting, pairs, eligible)
  {
    var overall := SummariseSample(setting, None, pairs);
    var guarded := ProtectedGates(setting, pairs, groups, strata, eligible);
    decision := Decide(Gates(overall, eligible, setting.strong) + guarded);
  }

  method PairStream(hash: Hash, b: Bundle, events: seq<Event>) returns (r: Option<seq<Pair>>)
    ensures r.Some? <==> Streamed(hash, b, events)
    ensures r.Some? ==> Pairing(events, r.value) && r.value != []
  {
    var ok := CheckBundle(hash, b);
    if !ok {
      return None;
    }
    ok := LoadEvents(hash, events);
    if !ok {
      return None;
    }
    ok := BindEventsToPlan(events, b.plan);
    if !ok {
      return None;
    }
    r := Paired(events);
  }

  /** The checks on pairs are checks on the baseline events they hold. */
  method CheckPool(ghost events: seq<Event>, pairs: seq<Pair>, commitment: Digest) returns (ok: bool)
    requires Pairing(events, pairs) && pairs != []
    ensures ok <==> Poolable(Compared(events), commitment)
  {
    var base := [];
    for i := 0 to |pairs|
      invariant base == Map(BaselineOf(), pairs[..i])
    {
      MapSnoc(BaselineOf(), pairs, i);
      base := base + [pairs[i].baseline];
    }
    assert pairs[..|pairs|] == pairs;
    ok := Poolable(base, commitment);
    PoolOfListing(base, Compared(events), commitment);
  }

  lemma {:induction false} PoolOfListing(a: seq<Event>, b: seq<Event>, commitment: Digest)
    requires multiset(a) == multiset(b)
    ensures Poolable(a, commitment) <==> Poolable(b, commitment)
  {
    forall e ensures e in a <==> e in b {
      assert e in a <==> e in multiset(a);
      assert e in b <==> e in multiset(b);
    }
    assert |a| == |multiset(a)| == |b|;
    if a != [] {
      assert a[0] in a && b[0] in b;
    }
  }
}

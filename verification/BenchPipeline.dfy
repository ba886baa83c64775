/** A benchmark from plan to report: `make_plan`, `execute_plan`, `attest_events` and `compare` agree with each other. */
module BenchPipeline {
  import opened Wrappers
  import opened Listings
  import opened BenchRecords
  import opened BenchOrders
  import opened BenchPlan
  import opened BenchPlanning
  import opened BenchSizes
  import opened BenchSeeding
  import opened BenchEvents
  import opened BenchPairing
  import opened BenchRuns
  import opened BenchAttestation
  import opened BenchDecision
  import opened BenchCompare
  import opened BenchScale

  // ---------------------------------------------------------------- what a produced plan carries

  /** An assignment carries what the caller of `make_plan` chose. */
  predicate Carries(setup: Setup, a: Assignment) {
    var c := a.common;
    && c.run == setup.run && c.baseline == setup.baseline && c.evidence == setup.evidence && c.pins == setup.pins
    && c.environment == setup.files.environment.digest
  }

  predicate AllCarry(setup: Setup, xs: seq<Assignment>) {
    forall a :: a in xs ==> Carries(setup, a)
  }

  lemma {:induction false} PlannedCarries(shuffle: Shuffle, hash: Hash, setup: Setup, ds: seq<Dataset>, n: nat, seed: Seed)
    requires DistinctIds(ds)
    ensures AllCarry(setup, PlanFor(shuffle, hash, setup, ds, n, seed).unsigned.assignments)
  {
    var orders := Orders(shuffle, ds, n, seed);
    var xs := AssignmentsOf(setup, ds, n, orders);
    PlanIsProduced(setup, ds, n, orders);
    forall a | a in xs ensures Carries(setup, a) {
      assert Belongs(setup, ds, n, orders, a);
      BelongingCarries(setup, ds, n, orders, a);
    }
  }

  lemma {:induction false} BelongingCarries(setup: Setup, ds: seq<Dataset>, n: nat, orders: map<Slot, int>, a: Assignment)
    requires Belongs(setup, ds, n, orders, a)
    ensures Carries(setup, a)
  {
    var d: Dataset, i: nat :| d in ds && i < n && a in PairFor(setup, d, i, orders);
  }

  /** The bundle of a produced plan and the files it was made from. */
  function BundleFor(shuffle: Shuffle, hash: Hash, setup: Setup, ds: seq<Dataset>, n: nat, seed: Seed): (r: Bundle) {
    Bundle(setup.required, PlanFor(shuffle, hash, setup, ds, n, seed), ds, setup.files)
  }

  /** A produced plan passes the bundle check and its seed opens it. */
  lemma {:induction false} PlannedIsBundled(shuffle: Shuffle, hash: Hash, setup: Setup, ds: seq<Dataset>, n: nat, seed: Seed)
    requires Plannable(hash, setup, ds, n, seed) && ShortIds(ds)
    ensures Bundled(hash, BundleFor(shuffle, hash, setup, ds, n, seed))
    ensures Opened(shuffle, hash, BundleFor(shuffle, hash, setup, ds, n, seed), seed)
  {
    PlannedIsValid(shuffle, hash, setup, ds, n, seed);
    PlannedIsSeeded(shuffle, hash, setup, ds, n, seed);
    PlannedFromManifest(shuffle, hash, setup, ds, n, seed);
    PlannedCarries(shuffle, hash, setup, ds, n, seed);
    CarriedIsDeclared(setup, PlanFor(shuffle, hash, setup, ds, n, seed).unsigned);
  }

  lemma {:induction false} CarriedIsDeclared(setup: Setup, unsigned: Unsigned)
    requires AllCarry(setup, unsigned.assignments) && setup.baseline in setup.files.declared
    ensures Declared(unsigned.assignments, setup.files.declared) && ArtifactsAre(unsigned.assignments, setup.pins.artifact)
    ensures forall a :: a in unsigned.assignments ==> a.common.environment == setup.files.environment.digest
  {
    forall a | a in unsigned.assignments
      ensures a.common.baseline in setup.files.declared && a.common.pins.artifact == setup.pins.artifact
      ensures a.common.environment == setup.files.environment.digest
    {
      assert Carries(setup, a);
    }
  }

  // ---------------------------------------------------------------- what an executed and attested stream carries

  function SignedEvents(hash: Hash, key: Key, id: Id, plan: Plan, consumer: Consumer): (r: seq<Event>) {
    Map(Sign(hash, key, id), EventsFor(plan, consumer))
  }

  /** An event of the plan's execution, attested or not. */
  predicate IsEventFor(plan: Plan, consumer: Consumer, e: Event, a: Assignment) {
    Stripped(e) == EventFor(plan, consumer, a)
  }

  ghost predicate IsExecution(plan: Plan, consumer: Consumer, e: Event) {
    exists a :: a in plan.unsigned.assignments && IsEventFor(plan, consumer, e, a)
  }

  lemma {:induction false} ExecutionEvents(events: seq<Event>, plan: Plan, consumer: Consumer, e: Event)
    requires Executed(events, plan, consumer) && e in events
    ensures IsExecution(plan, consumer, e)
  {
    var i :| 0 <= i < |events| && events[i] == e;
    assert IsEventFor(plan, consumer, e, plan.unsigned.assignments[i]);
  }

  lemma {:induction false} EventsAreExecuted(plan: Plan, consumer: Consumer)
    ensures Executed(EventsFor(plan, consumer), plan, consumer)
  {
    var xs, events := plan.unsigned.assignments, EventsFor(plan, consumer);
    forall i | 0 <= i < |xs| ensures Stripped(events[i]) == EventFor(plan, consumer, xs[i]) {
      MapAt(EventOf(plan, consumer), xs, i);
    }
  }

  lemma {:induction false} SignedAreExecuted(hash: Hash, key: Key, id: Id, plan: Plan, consumer: Consumer)
    ensures Executed(SignedEvents(hash, key, id, plan, consumer), plan, consumer)
  {
    var xs, events := plan.unsigned.assignments, EventsFor(plan, consumer);
    EventsAreExecuted(plan, consumer);
    SigningSigns(hash, key, id, events);
    forall i | 0 <= i < |xs| ensures Stripped(SignedEvents(hash, key, id, plan, consumer)[i]) == EventFor(plan, consumer, xs[i]) {
      assert Stripped(events[i]) == EventFor(plan, consumer, xs[i]);
    }
  }

  lemma {:induction false} SignedKeys(hash: Hash, key: Key, id: Id, events: seq<Event>, e: Event)
    requires e in Map(Sign(hash, key, id), events)
    ensures e.attestation.Some? && e.attestation.value.key == id
  {
    MapMember(Sign(hash, key, id), events, e);
  }

  /** Events of a valid plan are valid as long as the key identity is an identifier. */
  lemma {:induction false} ExecutionIsValid(events: seq<Event>, plan: Plan, consumer: Consumer, id: Id)
    requires Executed(events, plan, consumer) && AllValid(plan.unsigned.assignments) && IsIdentifier(id)
    requires forall e :: e in events ==> e.attestation.None? || e.attestation.value.key == id
    ensures AllValidEvents(events)
  {
    forall e | e in events ensures ValidEvent(e) {
      ExecutionEvents(events, plan, consumer, e);
      var a :| a in plan.unsigned.assignments && IsEventFor(plan, consumer, e, a);
      assert e.assignment == a && ValidEntry(a);
    }
  }

  // ---------------------------------------------------------------- what a consumer must report

  /** A baseline without tokens has no token reduction, so `compare` refuses it. */
  predicate ReportsTokens(consumer: Consumer, xs: seq<Assignment>) {
    forall a :: a in xs && a.treatment == Baseline ==> Reported(consumer, a).tokens > 0
  }

  lemma {:induction false} PooledEvents(setup: Setup, plan: Plan, consumer: Consumer, e: Event, f: Event)
    requires AllCarry(setup, plan.unsigned.assignments) && IsExecution(plan, consumer, e) && IsExecution(plan, consumer, f)
    ensures SamePool(e, f) && e.seedCommitment == plan.unsigned.seed
  {
    var a :| a in plan.unsigned.assignments && IsEventFor(plan, consumer, e, a);
    var b :| b in plan.unsigned.assignments && IsEventFor(plan, consumer, f, b);
    assert Carries(setup, a) && Carries(setup, b);
  }

  lemma {:induction false} ExecutionPools(setup: Setup, events: seq<Event>, plan: Plan, consumer: Consumer)
    requires Executed(events, plan, consumer) && AllCarry(setup, plan.unsigned.assignments)
    ensures CommittedTo(Compared(events), plan.unsigned.seed) && Pooled(Compared(events))
  {
    var base := Compared(events);
    forall e | e in base ensures SamePool(base[0], e) && e.seedCommitment == plan.unsigned.seed {
      ComparedEvent(events, e);
      ComparedEvent(events, base[0]);
      ExecutionEvents(events, plan, consumer, e);
      ExecutionEvents(events, plan, consumer, base[0]);
      PooledEvents(setup, plan, consumer, base[0], e);
      PooledEvents(setup, plan, consumer, e, e);
    }
  }

  lemma {:induction false} ExecutionTokens(events: seq<Event>, plan: Plan, consumer: Consumer)
    requires Executed(events, plan, consumer)
    ensures PositiveTokens(Compared(events)) <==> ReportsTokens(consumer, plan.unsigned.assignments)
  {
    var xs, base := plan.unsigned.assignments, Compared(events);
    if ReportsTokens(consumer, xs) {
      forall e | e in base ensures e.metrics.tokens > 0 {
        ComparedEvent(events, e);
        ExecutionEvents(events, plan, consumer, e);
        var a :| a in xs && IsEventFor(plan, consumer, e, a);
        assert e.metrics == Reported(consumer, a) && a.treatment == Baseline;
      }
    }
    if PositiveTokens(base) {
      forall a | a in xs && a.treatment == Baseline ensures Reported(consumer, a).tokens > 0 {
        var e := EventOfAssignment(events, plan, consumer, a);
        ComparedEvent(events, e);
      }
    }
  }

  lemma {:induction false} EventOfAssignment(events: seq<Event>, plan: Plan, consumer: Consumer, a: Assignment) returns (e: Event)
    requires Executed(events, plan, consumer) && a in plan.unsigned.assignments
    ensures e in events && IsEventFor(plan, consumer, e, a)
    ensures e.assignment == a && !e.warmup && e.metrics == Reported(consumer, a)
  {
    var i :| 0 <= i < |plan.unsigned.assignments| && plan.unsigned.assignments[i] == a;
    e := events[i];
    assert Stripped(e) == EventFor(plan, consumer, a);
  }

  lemma {:induction false} PlannedBaseline(xs: seq<Assignment>) returns (a: Assignment)
    requires xs != [] && AllPartnered(xs)
    ensures a in xs && a.treatment == Baseline
  {
    a := xs[0];
    assert HasPartner(xs, a);
    if a.treatment != Baseline {
      a :| a in xs && Partners(xs[0], a);
    }
  }

  lemma {:induction false} SomethingCompared(events: seq<Event>, plan: Plan, consumer: Consumer)
    requires Executed(events, plan, consumer) && plan.unsigned.assignments != [] && AllPartnered(plan.unsigned.assignments)
    ensures Compared(events) != []
  {
    var a := PlannedBaseline(plan.unsigned.assignments);
    var e := EventOfAssignment(events, plan, consumer, a);
    ComparedEvent(events, e);
  }

  // ---------------------------------------------------------------- planned runs are never rejected

  /** Who wrote the stream of a planned run: execution, or attestation under a key and an identity. */
  datatype Writer = Executor | Attestor(key: Key, id: Id)

  predicate ValidWriter(w: Writer) { w.Attestor? ==> IsIdentifier(w.id) }

  /** The stream of a planned run. */
  function RunOf(hash: Hash, plan: Plan, consumer: Consumer, w: Writer): (r: seq<Event>) {
    match w
    case Executor => EventsFor(plan, consumer)
    case Attestor(key, id) => SignedEvents(hash, key, id, plan, consumer)
  }

  lemma {:induction false} RunIsExecuted(hash: Hash, plan: Plan, consumer: Consumer, w: Writer)
    requires ValidWriter(w) && AllValid(plan.unsigned.assignments)
    ensures Executed(RunOf(hash, plan, consumer, w), plan, consumer) && AllValidEvents(RunOf(hash, plan, consumer, w))
  {
    var events := RunOf(hash, plan, consumer, w);
    if w.Executor? {
      EventsAreExecuted(plan, consumer);
      forall e | e in events ensures e.attestation.None? {
        MapMember(EventOf(plan, consumer), plan.unsigned.assignments, e);
      }
      var id: Id := [0x61];
      assert id[..0] == [] && IsIdentifier(id);
      ExecutionIsValid(events, plan, consumer, id);
    } else {
      SignedAreExecuted(hash, w.key, w.id, plan, consumer);
      forall e | e in events ensures e.attestation.Some? && e.attestation.value.key == w.id {
        SignedKeys(hash, w.key, w.id, EventsFor(plan, consumer), e);
      }
      ExecutionIsValid(events, plan, consumer, w.id);
    }
  }

  /** No two events of the stream collide under the identity digest. */
  predicate NoCollision(hash: Hash, events: seq<Event>) { NoRepeats(Map(IdentityOfEvent(hash), events)) }

  /** A digest that separates the events of a run never collides on it. */
  lemma {:induction false} SeparatedDoNotCollide(hash: Hash, events: seq<Event>, plan: Plan, consumer: Consumer)
    requires Executed(events, plan, consumer) && NoRepeats(Map(KeyOf(), plan.unsigned.assignments))
    requires forall e, f :: e in events && f in events && hash.event(e) == hash.event(f) ==> e == f
    ensures NoCollision(hash, events)
  {
    ExecutedIsExact(events, plan, consumer);
    ExactKeys(events, plan.unsigned.assignments);
    CoarserNoRepeats(EventKey(), IdentityOfEvent(hash), events);
  }

  lemma {:induction false} RunIsStreamed(
    shuffle: Shuffle, hash: Hash, setup: Setup, ds: seq<Dataset>, n: nat, seed: Seed, consumer: Consumer, w: Writer)
    requires Plannable(hash, setup, ds, n, seed) && ShortIds(ds) && ValidWriter(w)
    ensures var events := RunOf(hash, PlanFor(shuffle, hash, setup, ds, n, seed), consumer, w);
            Streamed(hash, BundleFor(shuffle, hash, setup, ds, n, seed), events) <==> NoCollision(hash, events)
  {
    var plan := PlanFor(shuffle, hash, setup, ds, n, seed);
    var events := RunOf(hash, plan, consumer, w);
    PlannedIsValid(shuffle, hash, setup, ds, n, seed);
    PlannedIsBundled(shuffle, hash, setup, ds, n, seed);
    RunIsExecuted(hash, plan, consumer, w);
    PlannedRunIsAccepted(shuffle, hash, setup, ds, n, seed, consumer, events);
  }

  lemma {:induction false} RunIsPoolable(
    shuffle: Shuffle, hash: Hash, setup: Setup, ds: seq<Dataset>, n: nat, seed: Seed, consumer: Consumer, events: seq<Event>)
    requires Plannable(hash, setup, ds, n, seed) && ShortIds(ds)
    requires Executed(events, PlanFor(shuffle, hash, setup, ds, n, seed), consumer)
    ensures Poolable(Compared(events), hash.seed(seed))
            <==> ReportsTokens(consumer, PlanFor(shuffle, hash, setup, ds, n, seed).unsigned.assignments)
  {
    var plan := PlanFor(shuffle, hash, setup, ds, n, seed);
    PlannedIsValid(shuffle, hash, setup, ds, n, seed);
    PlannedCarries(shuffle, hash, setup, ds, n, seed);
    ExecutionPools(setup, events, plan, consumer);
    ExecutionTokens(events, plan, consumer);
    SomethingCompared(events, plan, consumer);
  }

  /**
    A verification key suits a run if there is none, or if it is a secret other than the seed and, for an attested
    run, the key that signed it or one that gives every event the same code.
    */
  predicate KeySuits(hash: Hash, plan: Plan, consumer: Consumer, w: Writer, seed: Seed, key: Option<Key>) {
    || key.None?
    || (&& ValidSecret(key.value) && key.value != seed
        && (w.Executor? || key.value == w.key || SameCodes(hash, w.key, key.value, w.id, EventsFor(plan, consumer))))
  }

  lemma {:induction false} SuitableKeys(hash: Hash, plan: Plan, consumer: Consumer, w: Writer, seed: Seed, key: Option<Key>)
    requires plan.unsigned.assignments != []
    ensures KeyAccepted(hash, RunOf(hash, plan, consumer, w), seed, key) <==> KeySuits(hash, plan, consumer, w, seed, key)
  {
    var events := EventsFor(plan, consumer);
    if w.Executor? {
      forall i | 0 <= i < |events| ensures events[i].attestation.None? {
        MapAt(EventOf(plan, consumer), plan.unsigned.assignments, i);
      }
      BareIsRefused(hash, events, key);
    } else {
      SignedIsRefused(hash, w.key, w.id, events, key);
    }
  }

  /**
    For every manifest with short identifiers, seed, replicate count, consumer and writer: `compare` accepts the run if
    and only if no event identities collide, baselines report tokens, the repetitions are in range and the verification
    key suits the run. No other check of the pipeline can refuse a planned run.
    */
  lemma {:induction false} PlannedRunIsComparable(
    shuffle: Shuffle, hash: Hash, setup: Setup, ds: seq<Dataset>, n: nat, seed: Seed, consumer: Consumer, w: Writer,
    key: Option<Key>, repetitions: int)
    requires Plannable(hash, setup, ds, n, seed) && ShortIds(ds) && ValidWriter(w)
    ensures var plan := PlanFor(shuffle, hash, setup, ds, n, seed);
            var events := RunOf(hash, plan, consumer, w);
            Comparable(shuffle, hash, BundleFor(shuffle, hash, setup, ds, n, seed), events, seed, key, repetitions) <==>
            && 100 <= repetitions <= 1_000_000 && NoCollision(hash, events)
            && ReportsTokens(consumer, plan.unsigned.assignments)
            && KeySuits(hash, plan, consumer, w, seed, key)
  {
    var plan := PlanFor(shuffle, hash, setup, ds, n, seed);
    PlannedIsValid(shuffle, hash, setup, ds, n, seed);
    PlannedIsBundled(shuffle, hash, setup, ds, n, seed);
    RunIsExecuted(hash, plan, consumer, w);
    RunIsStreamed(shuffle, hash, setup, ds, n, seed, consumer, w);
    RunIsPoolable(shuffle, hash, setup, ds, n, seed, consumer, RunOf(hash, plan, consumer, w));
    SuitableKeys(hash, plan, consumer, w, seed, key);
  }

  // ---------------------------------------------------------------- attesting a planned run

  /** A planned qualification run can be attested exactly under these conditions on key, identity and size. */
  lemma {:induction false} PlannedRunIsAttestable(
    shuffle: Shuffle, hash: Hash, setup: Setup, ds: seq<Dataset>, n: nat, seed: Seed, consumer: Consumer, key: Key, id: Id)
    requires Plannable(hash, setup, ds, n, seed) && ShortIds(ds)
    ensures var plan := PlanFor(shuffle, hash, setup, ds, n, seed);
            var events := EventsFor(plan, consumer);
            Attestable(shuffle, hash, BundleFor(shuffle, hash, setup, ds, n, seed), events, seed, key, id) <==>
            && setup.evidence == Qualification && NoCollision(hash, events)
            && ValidSecret(key) && key != seed && IsIdentifier(id)
            && Writable(hash, SignedEvents(hash, key, id, plan, consumer))
  {
    var plan := PlanFor(shuffle, hash, setup, ds, n, seed);
    var events := EventsFor(plan, consumer);
    PlannedIsValid(shuffle, hash, setup, ds, n, seed);
    PlannedIsBundled(shuffle, hash, setup, ds, n, seed);
    RunIsExecuted(hash, plan, consumer, Executor);
    PlannedRunIsAccepted(shuffle, hash, setup, ds, n, seed, consumer, events);
    PlannedCarries(shuffle, hash, setup, ds, n, seed);
    ExecutionEvidence(setup, events, plan, consumer);
  }

  lemma {:induction false} ExecutionEvidence(setup: Setup, events: seq<Event>, plan: Plan, consumer: Consumer)
    requires Executed(events, plan, consumer) && AllCarry(setup, plan.unsigned.assignments) && plan.unsigned.assignments != []
    ensures AllQualification(events) <==> setup.evidence == Qualification
  {
    forall e | e in events ensures e.assignment.common.evidence == setup.evidence {
      ExecutionEvents(events, plan, consumer, e);
      var a :| a in plan.unsigned.assignments && IsEventFor(plan, consumer, e, a);
      assert Carries(setup, a);
    }
    assert events[0] in events;
  }

  /** A produced plan executes exactly when its identifiers are short, the consumer completes and the events can be written. */
  lemma {:induction false} PlannedIsExecutable(shuffle: Shuffle, hash: Hash, setup: Setup, ds: seq<Dataset>, n: nat, seed: Seed, consumer: Consumer)
    requires Plannable(hash, setup, ds, n, seed)
    ensures var plan := PlanFor(shuffle, hash, setup, ds, n, seed);
            Executable(hash, plan, setup.files.canaries, setup.pins.artifact, consumer) <==>
            ShortIds(ds) && Completes(consumer, plan.unsigned.assignments) && Writable(hash, EventsFor(plan, consumer))
  {
    PlannedIsValid(shuffle, hash, setup, ds, n, seed);
    PlannedCarries(shuffle, hash, setup, ds, n, seed);
    CarriedIsDeclared(setup, PlanFor(shuffle, hash, setup, ds, n, seed).unsigned);
  }

  // ---------------------------------------------------------------- the whole pipeline

  /** What the caller of the pipeline brings. */
  datatype Job = Job(setup: Setup, ds: seq<Dataset>, replicates: int, seed: Seed, consumer: Consumer, key: Key, id: Id)

  function JobPlan(shuffle: Shuffle, hash: Hash, j: Job): (r: Plan)
    requires j.replicates >= 0
  {
    PlanFor(shuffle, hash, j.setup, j.ds, j.replicates, j.seed)
  }

  function JobBundle(shuffle: Shuffle, hash: Hash, j: Job): (r: Bundle)
    requires j.replicates >= 0
  {
    BundleFor(shuffle, hash, j.setup, j.ds, j.replicates, j.seed)
  }

  /** Plannable inputs whose plan can be written. */
  predicate Plans(hash: Hash, j: Job) {
    Plannable(hash, j.setup, j.ds, j.replicates, j.seed) && PlannedBytes(j.setup, j.ds, j.replicates) <= MAX_INPUT_BYTES
  }

  /** Short identifiers and a consumer that completes with events that can be written. */
  predicate Executes(hash: Hash, j: Job, plan: Plan) {
    ShortIds(j.ds) && Completes(j.consumer, plan.unsigned.assignments) && Writable(hash, EventsFor(plan, j.consumer))
  }

  /** Qualification evidence, a key that is not the seed, and attested events that can be written. */
  predicate Attests(hash: Hash, j: Job, plan: Plan) {
    && j.setup.evidence == Qualification && NoCollision(hash, EventsFor(plan, j.consumer))
    && ValidSecret(j.key) && j.key != j.seed && IsIdentifier(j.id)
    && Writable(hash, SignedEvents(hash, j.key, j.id, plan, j.consumer))
  }

  predicate Compares(hash: Hash, j: Job, plan: Plan) {
    && NoCollision(hash, SignedEvents(hash, j.key, j.id, plan, j.consumer))
    && ReportsTokens(j.consumer, plan.unsigned.assignments)
  }

  /** What a caller can know beforehand and every stage needs. */
  predicate Ready(shuffle: Shuffle, hash: Hash, j: Job) {
    Plans(hash, j) && var plan := JobPlan(shuffle, hash, j); Executes(hash, j, plan) && Attests(hash, j, plan) && Compares(hash, j, plan)
  }

  /** Plan, execute and attest: the attested events, exactly when the job is planned, executes and attests. */
  method Produce(shuffle: Shuffle, hash: Hash, j: Job) returns (r: Option<(Bundle, seq<Event>)>)
    ensures r.Some? <==> Plans(hash, j) && Executes(hash, j, JobPlan(shuffle, hash, j)) && Attests(hash, j, JobPlan(shuffle, hash, j))
    ensures r.Some? ==> r.value.0 == JobBundle(shuffle, hash, j)
    ensures r.Some? ==> r.value.1 == SignedEvents(hash, j.key, j.id, JobPlan(shuffle, hash, j), j.consumer)
  {
    var plan := MakePlan(shuffle, hash, j.setup, j.ds, j.replicates, j.seed);
    if plan.None? {
      return None;
    }
    PlannedIsExecutable(shuffle, hash, j.setup, j.ds, j.replicates, j.seed, j.consumer);
    var events := Execute(hash, plan.value, j.setup.files.canaries, j.setup.pins.artifact, j.consumer);
    if events.None? {
      return None;
    }
    var b := Bundle(j.setup.required, plan.value, j.ds, j.setup.files);
    PlannedRunIsAttestable(shuffle, hash, j.setup, j.ds, j.replicates, j.seed, j.consumer, j.key, j.id);
    var attested := AttestEvents(shuffle, hash, b, events.value, j.seed, j.key, j.id);
    r := if attested.None? then None else Some((b, attested.value));
  }

  lemma {:induction false} ProducedIsAttested(shuffle: Shuffle, hash: Hash, j: Job)
    requires Plans(hash, j) && Attests(hash, j, JobPlan(shuffle, hash, j))
    ensures CheckFor(hash, Some(j.key), SignedEvents(hash, j.key, j.id, JobPlan(shuffle, hash, j), j.consumer)) == Attested(j.id)
  {
    var plan := JobPlan(shuffle, hash, j);
    SomethingPlanned(j.setup, j.ds, j.replicates, Orders(shuffle, j.ds, j.replicates, j.seed));
    AttestedVerifies(hash, EventsFor(plan, j.consumer), j.key, j.id);
  }

  lemma {:induction false} ProducedIsComparable(shuffle: Shuffle, hash: Hash, j: Job, repetitions: int)
    requires Plans(hash, j) && ShortIds(j.ds) && Attests(hash, j, JobPlan(shuffle, hash, j))
    ensures Comparable(shuffle, hash, JobBundle(shuffle, hash, j),
                       SignedEvents(hash, j.key, j.id, JobPlan(shuffle, hash, j), j.consumer), j.seed, Some(j.key), repetitions)
            <==> 100 <= repetitions <= 1_000_000 && Compares(hash, j, JobPlan(shuffle, hash, j))
  {
    var w := Attestor(j.key, j.id);
    assert KeySuits(hash, JobPlan(shuffle, hash, j), j.consumer, w, j.seed, Some(j.key));
    PlannedRunIsComparable(shuffle, hash, j.setup, j.ds, j.replicates, j.seed, j.consumer, w, Some(j.key), repetitions);
  }

  /**
    The whole pipeline reports exactly on ready jobs, as attested under the identity the events were signed with, and
    then neither a missing attestation nor the order balance is among the reasons. Under the version 1 rules it reports
    a pass only on a large manifest with few replicates.
    */
  method RunBenchmark(shuffle: Shuffle, hash: Hash, rules: Rules, j: Job, repetitions: int) returns (report: Option<Report>)
    ensures report.Some? <==> Ready(shuffle, hash, j) && 100 <= repetitions <= 1_000_000
    ensures report.Some? ==> report.value.attestation == Attested(j.id)
    ensures report.Some? ==> MissingAttestation !in report.value.reasons && NotBalanced !in report.value.reasons
    ensures report.Some? && VersionOne(rules) && report.value.decision == Pass ==> LargeEnough(j.ds) && |j.ds| >= 1323 && j.replicates <= 18
  {
    var produced := Produce(shuffle, hash, j);
    if produced.None? {
      return None;
    }
    ProducedIsAttested(shuffle, hash, j);
    ProducedIsComparable(shuffle, hash, j, repetitions);
    var (b, events) := produced.value;
    var admitted;
    report, admitted := Compare(shuffle, hash, rules, b, events, j.seed, Some(j.key), repetitions);
    if report.Some? {
      ghost var setting := SettingOf(rules, admitted.value, repetitions);
      ReportedReasons(shuffle, hash, b, events, j.seed, Some(j.key), repetitions, admitted.value, setting);
      PassingJob(shuffle, hash, rules, j, events, repetitions, admitted.value);
    }
  }

  lemma {:induction false} PassingJob(shuffle: Shuffle, hash: Hash, rules: Rules, j: Job, events: seq<Event>, repetitions: int, a: Admitted)
    requires Plans(hash, j) && Comparable(shuffle, hash, JobBundle(shuffle, hash, j), events, j.seed, Some(j.key), repetitions)
    requires Admits(shuffle, hash, JobBundle(shuffle, hash, j), events, j.seed, Some(j.key), a)
    ensures VersionOne(rules) && ReportOn(SettingOf(rules, a, repetitions), a).decision == Pass ==>
            LargeEnough(j.ds) && |j.ds| >= 1323 && j.replicates <= 18
  {
    if VersionOne(rules) && ReportOn(SettingOf(rules, a, repetitions), a).decision == Pass {
      PassNeedsDatasets(shuffle, hash, rules, JobBundle(shuffle, hash, j), events, j.seed, Some(j.key), repetitions, a);
      FewReplicates(|j.ds|, j.replicates);
    }
  }

  lemma {:induction false} ReportedReasons(
    shuffle: Shuffle, hash: Hash, b: Bundle, events: seq<Event>, seed: Seed, key: Option<Key>, repetitions: int, a: Admitted, setting: Setting)
    requires Comparable(shuffle, hash, b, events, seed, key, repetitions) && Admits(shuffle, hash, b, events, seed, key, a)
    ensures NotBalanced !in Reasons(setting, a.pairs)
    ensures setting.attested ==> MissingAttestation !in Reasons(setting, a.pairs)
  {
    BalanceIsNeverTheReason(shuffle, hash, events, b.plan, b.ds, seed, a.replicates, a.pairs, setting);
    if setting.attested {
      AttestedReasons(setting, a.pairs);
    }
  }

  lemma {:induction false} AttestedReasons(setting: Setting, pairs: seq<Pair>)
    requires setting.attested
    ensures MissingAttestation !in Reasons(setting, pairs)
  {
    var strata := PairStrata(pairs);
    NoneMissing(!AllQualify(pairs), !SameStrata(strata, setting.required), !EnoughPairs(pairs, strata), !EnoughTasks(pairs, strata),
              !SteadyHost(pairs), !AllBalanced(pairs, strata), setting.repetitions < 10_000);
  }

  lemma {:induction false} NoneMissing(
    smoke: bool, incomplete: bool, fewPairs: bool, fewTasks: bool, variance: bool, unbalanced: bool, fewRepetitions: bool)
    ensures MissingAttestation !in ReasonList(smoke, false, incomplete, fewPairs, fewTasks, variance, unbalanced, fewRepetitions)
  {
  }
}

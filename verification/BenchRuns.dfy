/** Producers and verifiers agree: planned runs are accepted, and accepted runs are exact and counterbalanced. */
module BenchRuns {
  import opened Wrappers
  import opened Listings
  import opened BenchRecords
  import opened BenchOrders
  import opened BenchCounterbalance
  import opened BenchPlan
  import opened BenchPlanning
  import opened BenchSeeding
  import opened BenchEvents
  import opened BenchPairing

  lemma {:induction false} FilterAll<T>(p: T -> bool, xs: seq<T>)
    requires forall x :: x in xs ==> p(x)
    ensures Filter(p, xs) == xs
  {
    if xs != [] {
      assert xs[0] in xs;
      FilterAll(p, xs[1..]);
      assert xs == [xs[0]] + xs[1..];
    }
  }

  // ---------------------------------------------------------------- one event per assignment

  /** No warm-up, the plan's digest, each assignment once, and one seed commitment per pair. */
  ghost predicate Exact(events: seq<Event>, plan: Plan) {
    && (forall e :: e in events ==> !e.warmup && e.assignmentDigest == plan.digest)
    && multiset(Map(AssignmentOf(), events)) == multiset(plan.unsigned.assignments)
    && CommitmentsAgree(events)
  }

  predicate SameCommitment(e: Event, f: Event) {
    PairIdOf()(e) == PairIdOf()(f) ==> e.seedCommitment == f.seedCommitment
  }

  ghost predicate CommitmentsAgree(events: seq<Event>) {
    forall e, f {:trigger SameCommitment(e, f)} :: e in events && f in events ==> SameCommitment(e, f)
  }

  lemma {:induction false} DistinctAssignments(events: seq<Event>)
    requires NoRepeats(Map(EventKey(), events))
    ensures NoRepeats(Map(AssignmentOf(), events))
  {
    forall e, f | e in events && f in events && AssignmentOf()(e) == AssignmentOf()(f)
      ensures EventKey()(e) == EventKey()(f)
    {
    }
    CoarserNoRepeats(EventKey(), AssignmentOf(), events);
  }

  lemma {:induction false} BoundIsPostWarm(events: seq<Event>, plan: Plan)
    requires Bound(events, plan)
    ensures Filter(PostWarm(), events) == events
  {
    forall e | e in events ensures PostWarm()(e) {
      assert EventBound(Planned(plan.unsigned.assignments), plan.digest, e);
    }
    FilterAll(PostWarm(), events);
  }

  /** Binding is by identity only; pairing is what rules out a second event for an assignment. */
  lemma {:induction false} AcceptedIsExact(hash: Hash, events: seq<Event>, plan: Plan)
    requires ValidPlan(hash, plan) && Bound(events, plan) && Matched(Filter(PostWarm(), events))
    ensures Exact(events, plan)
  {
    BoundIsPostWarm(events, plan);
    BoundMeaning(events, plan);
    AcceptedMultiset(events, plan);
    OneCommitmentEach(events);
  }

  lemma {:induction false} AcceptedMultiset(events: seq<Event>, plan: Plan)
    requires NoRepeats(Map(KeyOf(), plan.unsigned.assignments)) && Bound(events, plan) && NoRepeats(Map(EventKey(), events))
    ensures multiset(Map(AssignmentOf(), events)) == multiset(plan.unsigned.assignments)
  {
    forall a ensures a in Map(AssignmentOf(), events) <==> a in plan.unsigned.assignments {
      BoundCarries(events, plan, a);
    }
    DistinctAssignments(events);
    NoRepeatsImage(KeyOf(), plan.unsigned.assignments);
    SameElements(Map(AssignmentOf(), events), plan.unsigned.assignments);
  }

  lemma {:induction false} OneCommitmentEach(events: seq<Event>)
    requires Matched(events)
    ensures CommitmentsAgree(events)
  {
    forall e, f | e in events && f in events ensures SameCommitment(e, f) {
      if PairIdOf()(e) == PairIdOf()(f) {
        OneCommitment(events, e, f);
      }
    }
  }

  lemma {:induction false} OneCommitment(events: seq<Event>, e: Event, f: Event)
    requires Matched(events) && e in events && f in events && PairIdOf()(e) == PairIdOf()(f)
    ensures e.seedCommitment == f.seedCommitment
  {
    assert HasMate(events, e);
    var g :| g in events && Mates(e, g);
    var twin := if f.assignment.treatment == e.assignment.treatment then e else g;
    SameKeys(e, f, g, twin);
    ImageDetermines(EventKey(), events, f, twin);
  }

  lemma {:induction false} SameKeys(e: Event, f: Event, g: Event, twin: Event)
    requires PairIdOf()(e) == PairIdOf()(f) && Mates(e, g)
    requires twin == if f.assignment.treatment == e.assignment.treatment then e else g
    ensures EventKey()(f) == EventKey()(twin) && twin.seedCommitment == e.seedCommitment
  {
  }

  lemma {:induction false} ExactIsAccepted(hash: Hash, events: seq<Event>, plan: Plan)
    requires ValidPlan(hash, plan) && Exact(events, plan)
    ensures Bound(events, plan) && Matched(Filter(PostWarm(), events))
  {
    var xs := plan.unsigned.assignments;
    forall a ensures a in Map(AssignmentOf(), events) <==> a in xs {
      MultisetMember(Map(AssignmentOf(), events), xs, a);
    }
    CarriedIsBound(events, plan);
    BoundIsPostWarm(events, plan);
    ExactKeys(events, xs);
    forall e | e in events ensures HasMate(events, e) {
      ExactMate(events, plan, e);
    }
    assert |multiset(Map(AssignmentOf(), events))| == |multiset(xs)| > 0;
  }

  lemma {:induction false} KeysOfAssignments(events: seq<Event>)
    ensures Map(KeyOf(), Map(AssignmentOf(), events)) == Map(EventKey(), events)
  {
    if events != [] {
      KeysOfAssignments(events[1..]);
      assert Map(AssignmentOf(), events)[1..] == Map(AssignmentOf(), events[1..]);
    }
  }

  lemma {:induction false} ExactKeys(events: seq<Event>, xs: seq<Assignment>)
    requires multiset(Map(AssignmentOf(), events)) == multiset(xs) && NoRepeats(Map(KeyOf(), xs))
    ensures NoRepeats(Map(EventKey(), events))
  {
    MapPermutation(KeyOf(), xs, Map(AssignmentOf(), events));
    PermutationNoRepeats(Map(KeyOf(), xs), Map(KeyOf(), Map(AssignmentOf(), events)));
    KeysOfAssignments(events);
  }

  lemma {:induction false} Carried(events: seq<Event>, xs: seq<Assignment>, e: Event)
    requires multiset(Map(AssignmentOf(), events)) == multiset(xs) && e in events
    ensures e.assignment in xs
  {
    MapMember(AssignmentOf(), events, e.assignment);
    assert AssignmentOf()(e) == e.assignment;
    MultisetMember(Map(AssignmentOf(), events), xs, e.assignment);
  }

  lemma {:induction false} CarrierOf(events: seq<Event>, xs: seq<Assignment>, a: Assignment) returns (e: Event)
    requires multiset(Map(AssignmentOf(), events)) == multiset(xs) && a in xs
    ensures e in events && e.assignment == a
  {
    MultisetMember(Map(AssignmentOf(), events), xs, a);
    MapMember(AssignmentOf(), events, a);
    e :| e in events && AssignmentOf()(e) == a;
  }

  lemma {:induction false} PartnersMate(e: Event, f: Event)
    requires Partners(e.assignment, f.assignment) && SameCommitment(e, f) && e.assignmentDigest == f.assignmentDigest
    ensures Mates(e, f)
  {
  }

  lemma {:induction false} ExactMate(events: seq<Event>, plan: Plan, e: Event)
    requires Exact(events, plan) && e in events
    requires AllPartnered(plan.unsigned.assignments)
    ensures HasMate(events, e)
  {
    var xs := plan.unsigned.assignments;
    Carried(events, xs, e);
    var b := PartnerOf(xs, e.assignment);
    var f := CarrierOf(events, xs, b);
    CarriersMate(events, plan, e, f);
  }

  lemma {:induction false} PartnerOf(xs: seq<Assignment>, a: Assignment) returns (b: Assignment)
    requires AllPartnered(xs) && a in xs
    ensures b in xs && Partners(a, b)
  {
    assert HasPartner(xs, a);
    b :| b in xs && Partners(a, b);
  }

  lemma {:induction false} CarriersMate(events: seq<Event>, plan: Plan, e: Event, f: Event)
    requires Exact(events, plan) && e in events && f in events && Partners(e.assignment, f.assignment)
    ensures Mates(e, f)
  {
    assert SameCommitment(e, f);
    assert e.assignmentDigest == plan.digest == f.assignmentDigest;
    PartnersMate(e, f);
  }

  /** For a valid plan the two checks together accept exactly the streams with one event per assignment. */
  lemma {:induction false} AcceptedIffExact(hash: Hash, events: seq<Event>, plan: Plan)
    requires ValidPlan(hash, plan)
    ensures Bound(events, plan) && Matched(Filter(PostWarm(), events)) <==> Exact(events, plan)
  {
    if Bound(events, plan) && Matched(Filter(PostWarm(), events)) {
      AcceptedIsExact(hash, events, plan);
    }
    if Exact(events, plan) {
      ExactIsAccepted(hash, events, plan);
    }
  }

  // ---------------------------------------------------------------- planned runs are never rejected

  /** The stream is the execution of the plan; attestations may have been added to it. */
  predicate Executed(events: seq<Event>, plan: Plan, consumer: Consumer) {
    && |events| == |plan.unsigned.assignments|
    && forall i :: 0 <= i < |events| ==> events[i].(attestation := None) == EventFor(plan, consumer, plan.unsigned.assignments[i])
  }

  lemma {:induction false} ExecutedIsExact(events: seq<Event>, plan: Plan, consumer: Consumer)
    requires Executed(events, plan, consumer)
    ensures Exact(events, plan)
  {
    var xs := plan.unsigned.assignments;
    forall i | 0 <= i < |events| ensures Map(AssignmentOf(), events)[i] == xs[i] {
      MapAt(AssignmentOf(), events, i);
      assert events[i].(attestation := None) == EventFor(plan, consumer, xs[i]);
    }
    assert Map(AssignmentOf(), events) == xs;
    forall e | e in events
      ensures !e.warmup && e.assignmentDigest == plan.digest && e.seedCommitment == plan.unsigned.seed
    {
      var i :| 0 <= i < |events| && events[i] == e;
      assert events[i].(attestation := None) == EventFor(plan, consumer, xs[i]);
    }
  }

  /**
    For every manifest, seed and replicate count: the produced plan reproduces from its seed and
    matches the manifest, and if its dataset identifiers are short enough it validates and its
    execution, attested or not, is bound and paired.
    */
  lemma {:induction false} PlannedRunIsAccepted(
    shuffle: Shuffle, hash: Hash, setup: Setup, ds: seq<Dataset>, n: nat, seed: Seed, consumer: Consumer, events: seq<Event>)
    requires Plannable(hash, setup, ds, n, seed) && ShortIds(ds)
    requires Executed(events, PlanFor(shuffle, hash, setup, ds, n, seed), consumer)
    ensures var plan := PlanFor(shuffle, hash, setup, ds, n, seed);
            && ValidPlan(hash, plan)
            && FromManifest(plan.unsigned.assignments, ds)
            && Seeded(shuffle, plan.unsigned.assignments, ds, seed, n)
            && Bound(events, plan) && Matched(Filter(PostWarm(), events))
  {
    var plan := PlanFor(shuffle, hash, setup, ds, n, seed);
    PlannedIsValid(shuffle, hash, setup, ds, n, seed);
    PlannedIsSeeded(shuffle, hash, setup, ds, n, seed);
    PlannedFromManifest(shuffle, hash, setup, ds, n, seed);
    ExecutedIsExact(events, plan, consumer);
    ExactIsAccepted(hash, events, plan);
  }

  // ---------------------------------------------------------------- counterbalance

  /** Each assignment carries its dataset's task and stratum, as the input bundle check demands. */
  ghost predicate FromManifest(xs: seq<Assignment>, ds: seq<Dataset>) {
    forall a :: a in xs ==> IsFrom(ds, a)
  }

  ghost predicate IsFrom(ds: seq<Dataset>, a: Assignment) {
    exists d :: d in ds && d.id == a.common.dataset && d.task == a.common.task && d.stratum == a.common.stratum
  }

  lemma {:induction false} PlannedFromManifest(shuffle: Shuffle, hash: Hash, setup: Setup, ds: seq<Dataset>, n: nat, seed: Seed)
    requires DistinctIds(ds)
    ensures FromManifest(PlanFor(shuffle, hash, setup, ds, n, seed).unsigned.assignments, ds)
  {
    var orders := Orders(shuffle, ds, n, seed);
    var xs := AssignmentsOf(setup, ds, n, orders);
    PlanIsProduced(setup, ds, n, orders);
    forall a | a in xs ensures IsFrom(ds, a) {
      BelongingIsFrom(setup, ds, n, orders, a);
    }
  }

  lemma {:induction false} BelongingIsFrom(setup: Setup, ds: seq<Dataset>, n: nat, orders: map<Slot, int>, a: Assignment)
    requires Belongs(setup, ds, n, orders, a)
    ensures IsFrom(ds, a)
  {
    var d: Dataset, i: nat :| d in ds && i < n && a in PairFor(setup, d, i, orders);
  }

  predicate Declared(xs: seq<Assignment>, declared: set<Id>) {
    forall a :: a in xs ==> a.common.baseline in declared
  }

  /** The source's loop: look the dataset up by identifier, compare task and stratum, and the baseline is declared. */
  method CheckManifest(xs: seq<Assignment>, ds: seq<Dataset>, declared: set<Id>) returns (ok: bool)
    requires DistinctIds(ds)
    ensures ok <==> FromManifest(xs, ds) && Declared(xs, declared)
  {
    var byId: map<Id, Dataset> := map[];
    for i := 0 to |ds|
      invariant forall id :: id in byId ==> byId[id] in ds && byId[id].id == id
      invariant forall j :: 0 <= j < i ==> ds[j].id in byId
    {
      byId := byId[ds[i].id := ds[i]];
    }
    for i := 0 to |xs|
      invariant forall j :: 0 <= j < i ==> IsFrom(ds, xs[j]) && xs[j].common.baseline in declared
    {
      var c := xs[i].common;
      if c.dataset !in byId || byId[c.dataset].task != c.task || byId[c.dataset].stratum != c.stratum {
        NotFrom(ds, byId, xs[i]);
        assert xs[i] in xs;
        return false;
      }
      if c.baseline !in declared {
        assert xs[i] in xs;
        return false;
      }
    }
    ok := true;
  }

  lemma {:induction false} NotFrom(ds: seq<Dataset>, byId: map<Id, Dataset>, a: Assignment)
    requires DistinctIds(ds) && (forall id :: id in byId ==> byId[id] in ds && byId[id].id == id)
    requires forall j :: 0 <= j < |ds| ==> ds[j].id in byId
    requires var c := a.common; c.dataset !in byId || byId[c.dataset].task != c.task || byId[c.dataset].stratum != c.stratum
    ensures !IsFrom(ds, a)
  {
    forall d | d in ds && d.id == a.common.dataset ensures d.task != a.common.task || d.stratum != a.common.stratum {
      ImageDetermines(IdOf(), ds, d, byId[d.id]);
    }
  }

  function SlotOf(): (r: Event -> Slot) {
    (e: Event) => Slot(e.assignment.common.dataset, if e.assignment.common.sample < 0 then 0 else e.assignment.common.sample)
  }

  /** First-place minus second-place within a stratum, for an event, a pair and a slot. */
  function EventSign(s: Id): (r: Event -> int) {
    (e: Event) => if e.assignment.common.stratum == s then Sign(e.assignment.order) else 0
  }

  function PairSign(s: Id): (r: Pair -> int) {
    (p: Pair) => if p.baseline.assignment.common.stratum == s then Sign(p.baseline.assignment.order) else 0
  }

  function StratumSign(ds: seq<Dataset>, s: Id, orders: map<Slot, int>): (r: Slot -> int) {
    (slot: Slot) => if slot.dataset in Map(IdOf(), Filter(InStratum(s), ds)) && slot in orders then Sign(orders[slot]) else 0
  }

  lemma {:induction false} TallyPairs(s: Id, pairs: seq<Pair>)
    ensures Tally(PairSign(s), pairs) == Tally(EventSign(s), Map(BaselineOf(), pairs))
  {
    if pairs != [] {
      TallyPairs(s, pairs[1..]);
      assert Map(BaselineOf(), pairs)[1..] == Map(BaselineOf(), pairs[1..]);
    }
  }

  lemma {:induction false} TallyMap<T, U>(f: T -> int, g: U -> int, h: T -> U, xs: seq<T>)
    requires forall x :: x in xs ==> f(x) == g(h(x))
    ensures Tally(f, xs) == Tally(g, Map(h, xs))
  {
    if xs != [] {
      assert xs[0] in xs;
      TallyMap(f, g, h, xs[1..]);
      assert Map(h, xs)[1..] == Map(h, xs[1..]);
    }
  }

  lemma {:induction false} StratumOfDataset(ds: seq<Dataset>, s: Id, d: Dataset)
    requires DistinctIds(ds) && d in ds
    ensures d.id in Map(IdOf(), Filter(InStratum(s), ds)) <==> d.stratum == s
  {
    var inside := Filter(InStratum(s), ds);
    MapMember(IdOf(), inside, d.id);
    FilterMember(InStratum(s), ds, d);
    assert IdOf()(d) == d.id;
    if d.id in Map(IdOf(), inside) {
      var e :| e in inside && IdOf()(e) == d.id;
      FilterMember(InStratum(s), ds, e);
      ImageDetermines(IdOf(), ds, d, e);
    }
  }

  lemma {:induction false} TallySamples(f: Slot -> int, g: Slot -> int, id: Id, n: nat)
    requires forall i: nat :: f(Slot(id, i)) == g(Slot(id, i))
    ensures Tally(f, Samples(id, n)) == Tally(g, Samples(id, n))
  {
    if n > 0 {
      TallySamples(f, g, id, n - 1);
      TallyConcat(f, Samples(id, n - 1), [Slot(id, n - 1)]);
      TallyConcat(g, Samples(id, n - 1), [Slot(id, n - 1)]);
    }
  }

  function Nothing(): (r: Slot -> int) { (slot: Slot) => 0 }

  lemma {:induction false} TallyNothing(slots: seq<Slot>)
    ensures Tally(Nothing(), slots) == 0
  {
    if slots != [] {
      TallyNothing(slots[1..]);
    }
  }

  /** The slots outside a stratum do not count towards it. */
  lemma {:induction false} TallyStratum(all: seq<Dataset>, ds: seq<Dataset>, s: Id, orders: map<Slot, int>, n: nat)
    requires DistinctIds(all) && forall d :: d in ds ==> d in all
    ensures Tally(StratumSign(all, s, orders), SlotsOf(ds, n)) == Tally(SlotSign(orders), SlotsOf(Filter(InStratum(s), ds), n))
  {
    if ds != [] {
      var d, rest := ds[0], ds[1..];
      assert d in ds;
      TallyStratum(all, rest, s, orders, n);
      StratumOfDataset(all, s, d);
      TallyConcat(StratumSign(all, s, orders), Samples(d.id, n), SlotsOf(rest, n));
      if d.stratum == s {
        TallySamples(StratumSign(all, s, orders), SlotSign(orders), d.id, n);
        var inside := Filter(InStratum(s), rest);
        assert Filter(InStratum(s), ds) == [d] + inside;
        assert ([d] + inside)[1..] == inside;
        TallyConcat(SlotSign(orders), Samples(d.id, n), SlotsOf(inside, n));
      } else {
        TallySamples(StratumSign(all, s, orders), Nothing(), d.id, n);
        TallyNothing(Samples(d.id, n));
        assert Filter(InStratum(s), ds) == Filter(InStratum(s), rest);
      }
    }
  }

  lemma {:induction false} FilterMapNoRepeats<T, U>(f: T -> U, p: T -> bool, xs: seq<T>)
    requires NoRepeats(Map(f, xs))
    ensures NoRepeats(Map(f, Filter(p, xs)))
  {
    if xs != [] {
      var rest := Filter(p, xs[1..]);
      assert Map(f, xs)[1..] == Map(f, xs[1..]);
      FilterMapNoRepeats(f, p, xs[1..]);
      if p(xs[0]) {
        assert Filter(p, xs) == [xs[0]] + rest;
        assert Map(f, Filter(p, xs)) == [f(xs[0])] + Map(f, rest);
        if f(xs[0]) in Map(f, rest) {
          MapMember(f, rest, f(xs[0]));
          var y :| y in rest && f(y) == f(xs[0]);
          FilterMember(p, xs[1..], y);
          MapMember(f, xs[1..], f(xs[0]));
        }
      } else {
        assert Filter(p, xs) == rest;
      }
    }
  }

  /** What acceptance leaves: a seeded plan from the manifest, carried out once per assignment. */
  ghost predicate Accepted(shuffle: Shuffle, events: seq<Event>, xs: seq<Assignment>, ds: seq<Dataset>, seed: Seed, n: nat) {
    && DistinctIds(ds) && FromManifest(xs, ds) && Seeded(shuffle, xs, ds, seed, n)
    && multiset(Map(AssignmentOf(), events)) == multiset(xs)
    && NoRepeats(Map(EventKey(), events))
  }

  lemma {:induction false} BaselineFacts(shuffle: Shuffle, events: seq<Event>, xs: seq<Assignment>, ds: seq<Dataset>, seed: Seed, n: nat, e: Event)
    requires Accepted(shuffle, events, xs, ds, seed, n) && e in Filter(IsBaseline(), events)
    ensures e in events && e.assignment.treatment == Baseline && e.assignment in xs
    ensures Reproduces(Orders(shuffle, ds, n, seed), e.assignment)
    ensures SlotOf()(e) == Slot(e.assignment.common.dataset, e.assignment.common.sample)
    ensures SlotOf()(e) in SlotsOf(ds, n)
  {
    FilterMember(IsBaseline(), events, e);
    Carried(events, xs, e);
    assert Reproduces(Orders(shuffle, ds, n, seed), e.assignment);
    MapMember(IdentityOf(), xs, IdentityOf()(e.assignment));
    assert Expected(ds, n, IdentityOf()(e.assignment));
    SlotsMember(ds, n, SlotOf()(e));
  }

  lemma {:induction false} SlotHasBaseline(shuffle: Shuffle, events: seq<Event>, xs: seq<Assignment>, ds: seq<Dataset>, seed: Seed, n: nat, slot: Slot)
    requires Accepted(shuffle, events, xs, ds, seed, n) && slot in SlotsOf(ds, n)
    ensures slot in Map(SlotOf(), Filter(IsBaseline(), events))
  {
    var x := Identity(slot.dataset, slot.sample, Baseline);
    SlotsMember(ds, n, slot);
    assert Expected(ds, n, x);
    MapMember(IdentityOf(), xs, x);
    var a :| a in xs && IdentityOf()(a) == x;
    var e := CarrierOf(events, xs, a);
    FilterMember(IsBaseline(), events, e);
    assert SlotOf()(e) == slot;
    MapMember(SlotOf(), Filter(IsBaseline(), events), slot);
  }

  /** The baseline events fill every slot of the manifest exactly once. */
  lemma {:induction false} BaselinesFillSlots(shuffle: Shuffle, events: seq<Event>, xs: seq<Assignment>, ds: seq<Dataset>, seed: Seed, n: nat)
    requires Accepted(shuffle, events, xs, ds, seed, n)
    ensures multiset(Map(SlotOf(), Filter(IsBaseline(), events))) == multiset(SlotsOf(ds, n))
  {
    var base := Filter(IsBaseline(), events);
    FilterMapNoRepeats(EventKey(), IsBaseline(), events);
    forall e, f | e in base && f in base && SlotOf()(e) == SlotOf()(f) ensures EventKey()(e) == EventKey()(f) {
      BaselineFacts(shuffle, events, xs, ds, seed, n, e);
      BaselineFacts(shuffle, events, xs, ds, seed, n, f);
    }
    CoarserNoRepeats(EventKey(), SlotOf(), base);
    SlotsNoRepeats(ds, n);
    forall slot ensures slot in Map(SlotOf(), base) <==> slot in SlotsOf(ds, n) {
      if slot in Map(SlotOf(), base) {
        MapMember(SlotOf(), base, slot);
        var e :| e in base && SlotOf()(e) == slot;
        BaselineFacts(shuffle, events, xs, ds, seed, n, e);
      }
      if slot in SlotsOf(ds, n) {
        SlotHasBaseline(shuffle, events, xs, ds, seed, n, slot);
      }
    }
    SameElements(Map(SlotOf(), base), SlotsOf(ds, n));
  }

  lemma {:induction false} SignOfBaseline(shuffle: Shuffle, events: seq<Event>, xs: seq<Assignment>, ds: seq<Dataset>, seed: Seed, n: nat, s: Id, e: Event)
    requires Accepted(shuffle, events, xs, ds, seed, n) && e in Filter(IsBaseline(), events)
    ensures EventSign(s)(e) == StratumSign(ds, s, Orders(shuffle, ds, n, seed))(SlotOf()(e))
  {
    BaselineFacts(shuffle, events, xs, ds, seed, n, e);
    var a := e.assignment;
    assert IsFrom(ds, a);
    var d :| d in ds && d.id == a.common.dataset && d.task == a.common.task && d.stratum == a.common.stratum;
    StratumOfDataset(ds, s, d);
  }

  /** In every stratum of an accepted stream, baseline goes first as often as second, or once more. */
  lemma {:induction false} AcceptedIsCounterbalanced(
    shuffle: Shuffle, events: seq<Event>, xs: seq<Assignment>, ds: seq<Dataset>, seed: Seed, n: nat, pairs: seq<Pair>, s: Id)
    requires Accepted(shuffle, events, xs, ds, seed, n)
    requires Pairing(events, pairs) && Filter(PostWarm(), events) == events
    ensures 0 <= Tally(PairSign(s), pairs) <= 1
  {
    var orders := Orders(shuffle, ds, n, seed);
    var base := Filter(IsBaseline(), events);
    TallyPairs(s, pairs);
    TallyPermutation(EventSign(s), Map(BaselineOf(), pairs), base);
    forall e | e in base ensures EventSign(s)(e) == StratumSign(ds, s, orders)(SlotOf()(e)) {
      SignOfBaseline(shuffle, events, xs, ds, seed, n, s, e);
    }
    TallyMap(EventSign(s), StratumSign(ds, s, orders), SlotOf(), base);
    BaselinesFillSlots(shuffle, events, xs, ds, seed, n);
    TallyPermutation(StratumSign(ds, s, orders), Map(SlotOf(), base), SlotsOf(ds, n));
    TallyStratum(ds, ds, s, orders, n);
    StratumBalanced(shuffle, ds, n, seed, s);
  }

  lemma {:induction false} StratumBalanced(shuffle: Shuffle, ds: seq<Dataset>, n: nat, seed: Seed, s: Id)
    requires DistinctIds(ds)
    ensures 0 <= Tally(SlotSign(Orders(shuffle, ds, n, seed)), SlotsOf(Filter(InStratum(s), ds), n)) <= 1
  {
    if s in Strata(ds) {
      OrdersBalanced(shuffle, ds, n, seed, s);
    } else {
      var inside := Filter(InStratum(s), ds);
      if inside != [] {
        FilterMember(InStratum(s), ds, inside[0]);
        StrataMember(ds, inside[0]);
      }
    }
  }

  /** The checks a stream passes before it is compared are enough for the above. */
  lemma {:induction false} ChecksImplyAccepted(
    shuffle: Shuffle, hash: Hash, events: seq<Event>, plan: Plan, ds: seq<Dataset>, seed: Seed, n: nat)
    requires DistinctIds(ds) && ValidPlan(hash, plan) && FromManifest(plan.unsigned.assignments, ds)
    requires Seeded(shuffle, plan.unsigned.assignments, ds, seed, n)
    requires Bound(events, plan) && Matched(Filter(PostWarm(), events))
    ensures Accepted(shuffle, events, plan.unsigned.assignments, ds, seed, n) && Filter(PostWarm(), events) == events
  {
    BoundIsPostWarm(events, plan);
    AcceptedIsExact(hash, events, plan);
  }
}

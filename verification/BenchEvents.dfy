/** Raw benchmark events: executing a plan, writing and loading a stream, and binding it to its plan. */
module BenchEvents {
  import opened Wrappers
  import opened Listings
  import opened BenchRecords
  import opened BenchPlan

  function AssignmentOf(): (r: Event -> Assignment) { (e: Event) => e.assignment }

  function EventKey(): (r: Event -> PairKey) { (e: Event) => PairKey(e.assignment.common.pair, e.assignment.treatment) }

  // ---------------------------------------------------------------- writing and loading a stream

  function Lengths(hash: Hash): (r: Event -> int) { (e: Event) => EventBytes(hash, e) }

  predicate WithinLimits(length: Event -> int, events: seq<Event>) {
    && 0 < |events| <= MAX_EVENTS
    && (forall e :: e in events ==> length(e) <= MAX_EVENT_BYTES)
    && Tally(length, events) <= MAX_INPUT_BYTES
  }

  /** What `write_events` can write: no empty stream, no long event, no long file. */
  predicate Writable(hash: Hash, events: seq<Event>) { WithinLimits(Lengths(hash), events) }

  lemma {:induction false} LengthsAreNatural(length: Event -> int, events: seq<Event>)
    requires forall e :: length(e) >= 0
    ensures Tally(length, events) >= 0
  {
    if events != [] {
      LengthsAreNatural(length, events[1..]);
    }
  }

  lemma {:induction false} TooLongAlready(length: Event -> int, events: seq<Event>, i: nat)
    requires (forall e :: length(e) >= 0) && i <= |events|
    ensures Tally(length, events[..i]) <= Tally(length, events)
  {
    assert events == events[..i] + events[i..];
    TallyConcat(length, events[..i], events[i..]);
    LengthsAreNatural(length, events[i..]);
  }

  lemma {:induction false} OneMoreLength(length: Event -> int, events: seq<Event>, i: nat)
    requires i < |events|
    ensures Tally(length, events[..i + 1]) == Tally(length, events[..i]) + length(events[i])
  {
    assert events[..i + 1] == events[..i] + [events[i]];
    TallyConcat(length, events[..i], [events[i]]);
    assert Tally(length, [events[i]]) == length(events[i]) + Tally(length, [events[i]][1..]);
  }

  /** The running total stops the loop exactly when the whole stream is too long. */
  method CheckLengths(length: Event -> int, events: seq<Event>) returns (ok: bool)
    requires forall e :: length(e) >= 0
    ensures ok <==> WithinLimits(length, events)
  {
    var total := 0;
    for i := 0 to |events|
      invariant i <= MAX_EVENTS && total == Tally(length, events[..i]) && total <= MAX_INPUT_BYTES
      invariant forall j :: 0 <= j < i ==> length(events[j]) <= MAX_EVENT_BYTES
    {
      OneMoreLength(length, events, i);
      if length(events[i]) > MAX_EVENT_BYTES {
        assert events[i] in events;
        return false;
      }
      total := total + length(events[i]);
      if total > MAX_INPUT_BYTES || i + 1 > MAX_EVENTS {
        TooLongAlready(length, events, i + 1);
        return false;
      }
    }
    assert events[..|events|] == events;
    ok := events != [];
  }

  method WriteEvents(hash: Hash, events: seq<Event>) returns (ok: bool)
    ensures ok <==> Writable(hash, events)
  {
    ok := CheckLengths(Lengths(hash), events);
  }

  function IdentityOfEvent(hash: Hash): (r: Event -> Digest) { (e: Event) => hash.event(e) }

  predicate ValidEvent(e: Event) {
    ValidEntry(e.assignment) && (e.attestation.Some? ==> IsIdentifier(e.attestation.value.key))
  }

  predicate AllValidEvents(events: seq<Event>) {
    forall e :: e in events ==> ValidEvent(e)
  }

  /** What `load_events` accepts of a written stream: valid events with distinct identities. */
  predicate Loadable(hash: Hash, events: seq<Event>) {
    events != [] && AllValidEvents(events) && NoRepeats(Map(IdentityOfEvent(hash), events))
  }

  /** A listing repeats no image exactly when each image is new when it is reached. */
  method CheckDistinct<T(!new), U(==)>(f: T -> U, xs: seq<T>) returns (ok: bool)
    ensures ok <==> NoRepeats(Map(f, xs))
  {
    var seen: seq<U> := [];
    for i := 0 to |xs|
      invariant seen == Map(f, xs[..i]) && NoRepeats(seen)
    {
      SeenImage(f, xs, i);
      if f(xs[i]) in seen {
        return false;
      }
      seen := seen + [f(xs[i])];
    }
    assert xs[..|xs|] == xs;
    ok := true;
  }

  method LoadEvents(hash: Hash, events: seq<Event>) returns (ok: bool)
    ensures ok <==> Loadable(hash, events)
  {
    ok := CheckDistinct(IdentityOfEvent(hash), events);
    ok := ok && events != [] && AllValidEvents(events);
  }

  // ---------------------------------------------------------------- executing a plan

  /** A consumer reports metrics, or fails. */
  type Consumer = Assignment -> Option<Metrics>

  predicate Completes(consumer: Consumer, xs: seq<Assignment>) {
    forall a :: a in xs ==> consumer(a).Some?
  }

  function Reported(consumer: Consumer, a: Assignment): (r: Metrics) {
    if consumer(a).Some? then consumer(a).value else Metrics(0, false, false, 0, 0.0, 0.0)
  }

  function EventFor(plan: Plan, consumer: Consumer, a: Assignment): (r: Event) {
    Event(a, false, Reported(consumer, a), plan.digest, plan.unsigned.seed, None)
  }

  function EventOf(plan: Plan, consumer: Consumer): (r: Assignment -> Event) {
    (a: Assignment) => EventFor(plan, consumer, a)
  }

  function EventsFor(plan: Plan, consumer: Consumer): (r: seq<Event>)
    ensures |r| == |plan.unsigned.assignments|
  {
    Map(EventOf(plan, consumer), plan.unsigned.assignments)
  }

  predicate ArtifactsAre(xs: seq<Assignment>, artifact: Digest) {
    forall a :: a in xs ==> a.common.pins.artifact == artifact
  }

  /** What execution demands: a valid plan for this registry and consumer, a consumer that completes, and a writable stream. */
  ghost predicate Executable(hash: Hash, plan: Plan, canaries: Digest, artifact: Digest, consumer: Consumer) {
    && ValidPlan(hash, plan) && plan.unsigned.canaries == canaries && ArtifactsAre(plan.unsigned.assignments, artifact)
    && Completes(consumer, plan.unsigned.assignments) && Writable(hash, EventsFor(plan, consumer))
  }

  /** One unattested event per assignment, in plan order. */
  method Execute(hash: Hash, plan: Plan, canaries: Digest, artifact: Digest, consumer: Consumer) returns (r: Option<seq<Event>>)
    ensures r.Some? <==> Executable(hash, plan, canaries, artifact, consumer)
    ensures r.Some? ==> r.value == EventsFor(plan, consumer)
  {
    var ok := ValidatePlan(hash, plan);
    if !ok || plan.unsigned.canaries != canaries || !ArtifactsAre(plan.unsigned.assignments, artifact) {
      return None;
    }
    var events := Consume(plan, consumer);
    if events.None? {
      return None;
    }
    ok := WriteEvents(hash, events.value);
    r := if ok then events else None;
  }

  method Consume(plan: Plan, consumer: Consumer) returns (r: Option<seq<Event>>)
    ensures r.Some? <==> Completes(consumer, plan.unsigned.assignments)
    ensures r.Some? ==> r.value == EventsFor(plan, consumer)
  {
    var xs, events := plan.unsigned.assignments, [];
    for i := 0 to |xs|
      invariant forall j :: 0 <= j < i ==> consumer(xs[j]).Some?
      invariant events == Map(EventOf(plan, consumer), xs[..i])
    {
      if consumer(xs[i]).None? {
        assert xs[i] in xs;
        return None;
      }
      MapSnoc(EventOf(plan, consumer), xs, i);
      events := events + [EventFor(plan, consumer, xs[i])];
    }
    assert xs[..|xs|] == xs;
    r := Some(events);
  }

  // ---------------------------------------------------------------- binding a stream to a plan

  /** The plan as a dictionary: a later entry replaces an earlier one under the same key. */
  function Planned(xs: seq<Assignment>): (r: map<PairKey, Assignment>) {
    if xs == [] then map[] else Planned(xs[..|xs| - 1])[KeyOf()(xs[|xs| - 1]) := xs[|xs| - 1]]
  }

  predicate EventBound(planned: map<PairKey, Assignment>, digest: Digest, e: Event) {
    && !e.warmup
    && EventKey()(e) in planned && planned[EventKey()(e)] == e.assignment
    && e.assignmentDigest == digest
  }

  /** Every event is a planned one, and every planned one occurs. */
  ghost predicate Bound(events: seq<Event>, plan: Plan) {
    var planned := Planned(plan.unsigned.assignments);
    && (forall e :: e in events ==> EventBound(planned, plan.digest, e))
    && (forall k :: k in planned ==> exists e :: e in events && EventKey()(e) == k)
  }

  method BindEventsToPlan(events: seq<Event>, plan: Plan) returns (ok: bool)
    ensures ok <==> Bound(events, plan)
  {
    var xs := plan.unsigned.assignments;
    var planned: map<PairKey, Assignment> := map[];
    for i := 0 to |xs|
      invariant planned == Planned(xs[..i])
    {
      assert xs[..i + 1][..i] == xs[..i];
      planned := planned[KeyOf()(xs[i]) := xs[i]];
    }
    assert xs[..|xs|] == xs;
    var observed: set<PairKey> := {};
    for i := 0 to |events|
      invariant forall j :: 0 <= j < i ==> EventBound(planned, plan.digest, events[j])
      invariant forall k :: k in observed <==> exists j :: 0 <= j < i && EventKey()(events[j]) == k
    {
      if !EventBound(planned, plan.digest, events[i]) {
        assert events[i] in events;
        return false;
      }
      observed := observed + {EventKey()(events[i])};
    }
    ok := observed == planned.Keys;
    if ok {
      forall k | k in planned ensures exists e :: e in events && EventKey()(e) == k {
        assert k in observed;
      }
    } else {
      assert observed <= planned.Keys;
      var k :| k in planned.Keys && k !in observed;
      forall e | e in events ensures EventKey()(e) != k {
        var j :| 0 <= j < |events| && events[j] == e;
      }
    }
  }

  lemma {:induction false} PlannedMember(xs: seq<Assignment>, a: Assignment)
    requires NoRepeats(Map(KeyOf(), xs)) && a in xs
    ensures KeyOf()(a) in Planned(xs) && Planned(xs)[KeyOf()(a)] == a
  {
    var before, last := xs[..|xs| - 1], xs[|xs| - 1];
    assert xs == before + [last];
    MapConcat(KeyOf(), before, [last]);
    NoRepeatsPrefix(Map(KeyOf(), before), Map(KeyOf(), [last]));
    assert Map(KeyOf(), [last])[0] == KeyOf()(last);
    if a != last {
      PlannedMember(before, a);
      MapMember(KeyOf(), before, KeyOf()(a));
    }
  }

  lemma {:induction false} PlannedKey(xs: seq<Assignment>, k: PairKey)
    requires k in Planned(xs)
    ensures Planned(xs)[k] in xs && KeyOf()(Planned(xs)[k]) == k
  {
    var before, last := xs[..|xs| - 1], xs[|xs| - 1];
    if k != KeyOf()(last) {
      PlannedKey(before, k);
    }
  }

  /** With distinct keys, binding says that the events carry exactly the planned assignments. */
  lemma {:induction false} BoundMeaning(events: seq<Event>, plan: Plan)
    requires NoRepeats(Map(KeyOf(), plan.unsigned.assignments))
    ensures Bound(events, plan) <==>
            && (forall e :: e in events ==> !e.warmup && e.assignmentDigest == plan.digest)
            && (forall a :: a in Map(AssignmentOf(), events) <==> a in plan.unsigned.assignments)
  {
    var xs := plan.unsigned.assignments;
    if Bound(events, plan) {
      forall a ensures a in Map(AssignmentOf(), events) <==> a in xs {
        BoundCarries(events, plan, a);
      }
    }
    if (forall e :: e in events ==> !e.warmup && e.assignmentDigest == plan.digest)
       && (forall a :: a in Map(AssignmentOf(), events) <==> a in xs) {
      CarriedIsBound(events, plan);
    }
  }

  lemma {:induction false} BoundCarries(events: seq<Event>, plan: Plan, a: Assignment)
    requires NoRepeats(Map(KeyOf(), plan.unsigned.assignments)) && Bound(events, plan)
    ensures a in Map(AssignmentOf(), events) <==> a in plan.unsigned.assignments
  {
    var xs := plan.unsigned.assignments;
    MapMember(AssignmentOf(), events, a);
    if a in Map(AssignmentOf(), events) {
      var e :| e in events && AssignmentOf()(e) == a;
      PlannedKey(xs, EventKey()(e));
    }
    if a in xs {
      PlannedMember(xs, a);
      var e :| e in events && EventKey()(e) == KeyOf()(a);
      assert EventBound(Planned(xs), plan.digest, e);
    }
  }

  lemma {:induction false} CarriedIsBound(events: seq<Event>, plan: Plan)
    requires NoRepeats(Map(KeyOf(), plan.unsigned.assignments))
    requires forall e :: e in events ==> !e.warmup && e.assignmentDigest == plan.digest
    requires forall a :: a in Map(AssignmentOf(), events) <==> a in plan.unsigned.assignments
    ensures Bound(events, plan)
  {
    var xs := plan.unsigned.assignments;
    forall e | e in events ensures EventBound(Planned(xs), plan.digest, e) {
      MapMember(AssignmentOf(), events, e.assignment);
      assert AssignmentOf()(e) == e.assignment;
      PlannedMember(xs, e.assignment);
    }
    forall k | k in Planned(xs) ensures exists e :: e in events && EventKey()(e) == k {
      PlannedKey(xs, k);
      MapMember(AssignmentOf(), events, Planned(xs)[k]);
      var e :| e in events && AssignmentOf()(e) == Planned(xs)[k];
      assert EventKey()(e) == k;
    }
  }
}

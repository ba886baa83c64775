/** The input bundle every consumer of a run checks, attesting events with a keyed digest, and verifying attestations. */
module BenchAttestation {
  import opened Wrappers
  import opened Listings
  import opened BenchRecords
  import opened BenchOrders
  import opened BenchPlan
  import opened BenchSeeding
  import opened BenchEvents
  import opened BenchRuns

  // ---------------------------------------------------------------- the input bundle

  /** The plan and the files it claims to be bound to. */
  datatype Bundle = Bundle(required: Inventory, plan: Plan, ds: seq<Dataset>, files: Files)

  predicate BoundToFiles(hash: Hash, unsigned: Unsigned, ds: seq<Dataset>, files: Files) {
    && Captured(hash, files.environment, ds)
    && unsigned.datasets == hash.manifest(ds) && unsigned.baselines == files.baselines && unsigned.canaries == files.canaries
    && forall a :: a in unsigned.assignments ==> a.common.environment == files.environment.digest
  }

  /** What `validated_input_bundle` accepts. */
  ghost predicate Bundled(hash: Hash, b: Bundle) {
    && ValidPlan(hash, b.plan) && ValidManifest(b.required, b.ds) && ValidDeclared(b.files.declared)
    && BoundToFiles(hash, b.plan.unsigned, b.ds, b.files)
    && FromManifest(b.plan.unsigned.assignments, b.ds) && Declared(b.plan.unsigned.assignments, b.files.declared)
  }

  method CheckBundle(hash: Hash, b: Bundle) returns (ok: bool)
    ensures ok <==> Bundled(hash, b)
  {
    ok := ValidatePlan(hash, b.plan);
    if !ok || !ValidManifest(b.required, b.ds) || !ValidDeclared(b.files.declared) {
      return false;
    }
    if !BoundToFiles(hash, b.plan.unsigned, b.ds, b.files) {
      return false;
    }
    ok := CheckManifest(b.plan.unsigned.assignments, b.ds, b.files.declared);
  }

  /** The assignments reproduce from a seed under some replicate count. */
  ghost predicate Reproducible(shuffle: Shuffle, xs: seq<Assignment>, ds: seq<Dataset>, seed: Seed) {
    exists n: nat :: Seeded(shuffle, xs, ds, seed, n)
  }

  /** The seed is the committed one and the plan's orders reproduce from it. */
  ghost predicate Opened(shuffle: Shuffle, hash: Hash, b: Bundle, seed: Seed) {
    && ValidSecret(seed) && hash.seed(seed) == b.plan.unsigned.seed
    && Reproducible(shuffle, b.plan.unsigned.assignments, b.ds, seed)
  }

  method OpenSeed(shuffle: Shuffle, hash: Hash, b: Bundle, seed: Seed) returns (r: Option<nat>)
    ensures r.Some? <==> Opened(shuffle, hash, b, seed)
    ensures r.Some? ==> Seeded(shuffle, b.plan.unsigned.assignments, b.ds, seed, r.value)
  {
    if !ValidSecret(seed) || hash.seed(seed) != b.plan.unsigned.seed {
      return None;
    }
    r := VerifySeededAssignments(shuffle, b.plan.unsigned.assignments, b.ds, seed);
  }

  // ---------------------------------------------------------------- attesting

  function Stripped(e: Event): (r: Event) { e.(attestation := None) }

  function Signature(hash: Hash, key: Key, id: Id, e: Event): (r: Attestation) {
    Attestation(id, hash.mac(key, id, Stripped(e)))
  }

  function Sign(hash: Hash, key: Key, id: Id): (r: Event -> Event) {
    (e: Event) => e.(attestation := Some(Signature(hash, key, id, e)))
  }

  predicate Signed(hash: Hash, key: Key, id: Id, e: Event) {
    e.attestation == Some(Signature(hash, key, id, e))
  }

  predicate AllSigned(hash: Hash, key: Key, id: Id, events: seq<Event>) {
    forall i :: 0 <= i < |events| ==> Signed(hash, key, id, events[i])
  }

  predicate AllQualification(events: seq<Event>) {
    forall e :: e in events ==> e.assignment.common.evidence == Qualification
  }

  /** Only a bound stream of qualification evidence is attested, by who holds the seed, under another key. */
  ghost predicate Attestable(shuffle: Shuffle, hash: Hash, b: Bundle, events: seq<Event>, seed: Seed, key: Key, id: Id) {
    && Bundled(hash, b) && Loadable(hash, events) && Bound(events, b.plan) && AllQualification(events)
    && Opened(shuffle, hash, b, seed)
    && ValidSecret(key) && key != seed && IsIdentifier(id)
    && Writable(hash, Map(Sign(hash, key, id), events))
  }

  method AttestEvents(shuffle: Shuffle, hash: Hash, b: Bundle, events: seq<Event>, seed: Seed, key: Key, id: Id)
    returns (r: Option<seq<Event>>)
    ensures r.Some? <==> Attestable(shuffle, hash, b, events, seed, key, id)
    ensures r.Some? ==> r.value == Map(Sign(hash, key, id), events)
  {
    var ok := CheckAttestable(hash, b, events);
    if !ok {
      return None;
    }
    var replicates := OpenSeed(shuffle, hash, b, seed);
    if replicates.None? || !ValidSecret(key) || key == seed || !IsIdentifier(id) {
      return None;
    }
    var attested := SignAll(hash, key, id, events);
    ok := WriteEvents(hash, attested);
    r := if ok then Some(attested) else None;
  }

  method CheckAttestable(hash: Hash, b: Bundle, events: seq<Event>) returns (ok: bool)
    ensures ok <==> Bundled(hash, b) && Loadable(hash, events) && Bound(events, b.plan) && AllQualification(events)
  {
    ok := CheckBundle(hash, b);
    if !ok {
      return;
    }
    ok := LoadEvents(hash, events);
    if !ok {
      return;
    }
    ok := BindEventsToPlan(events, b.plan);
    ok := ok && AllQualification(events);
  }

  method SignAll(hash: Hash, key: Key, id: Id, events: seq<Event>) returns (attested: seq<Event>)
    ensures attested == Map(Sign(hash, key, id), events)
  {
    attested := [];
    for i := 0 to |events|
      invariant attested == Map(Sign(hash, key, id), events[..i])
    {
      MapSnoc(Sign(hash, key, id), events, i);
      attested := attested + [Sign(hash, key, id)(events[i])];
    }
    assert events[..|events|] == events;
  }

  /** Attesting signs every event and changes nothing else. */
  lemma {:induction false} SigningSigns(hash: Hash, key: Key, id: Id, events: seq<Event>)
    ensures AllSigned(hash, key, id, Map(Sign(hash, key, id), events))
    ensures forall i :: 0 <= i < |events| ==> Stripped(Map(Sign(hash, key, id), events)[i]) == Stripped(events[i])
  {
    forall i | 0 <= i < |events|
      ensures Signed(hash, key, id, Map(Sign(hash, key, id), events)[i])
      ensures Stripped(Map(Sign(hash, key, id), events)[i]) == Stripped(events[i])
    {
      MapAt(Sign(hash, key, id), events, i);
      assert Stripped(Sign(hash, key, id)(events[i])) == Stripped(events[i]);
    }
  }

  // ---------------------------------------------------------------- verifying attestations

  datatype Check = Unattested | Attested(id: Id) | Refused

  /** An attestation whose digest is that of its own key identity and event. */
  predicate Genuine(hash: Hash, key: Key, e: Event) {
    e.attestation.Some? && Signed(hash, key, e.attestation.value.key, e)
  }

  /** How many events come before the first without a genuine attestation. */
  function GenuineCount(hash: Hash, key: Key, events: seq<Event>): (r: nat)
    ensures r <= |events|
  {
    if events == [] || !Genuine(hash, key, events[0]) then 0 else 1 + GenuineCount(hash, key, events[1..])
  }

  predicate SameKey(events: seq<Event>) {
    forall i :: 0 <= i < |events| ==>
      events[i].attestation.Some? && events[0].attestation.Some? && events[i].attestation.value.key == events[0].attestation.value.key
  }

  /** The first event that is not genuinely attested decides; otherwise all must name one key. */
  function CheckFor(hash: Hash, key: Option<Key>, events: seq<Event>): (r: Check) {
    if key.None? then Unattested
    else if !ValidSecret(key.value) then Refused
    else
      var n := GenuineCount(hash, key.value, events);
      if n < |events| then (if events[n].attestation.None? then Unattested else Refused)
      else if events == [] || !SameKey(events) || events[0].attestation.None? then Refused
      else Attested(events[0].attestation.value.key)
  }

  lemma {:induction false} GenuineBefore(hash: Hash, key: Key, events: seq<Event>, n: nat)
    requires n <= |events| && forall i :: 0 <= i < n ==> Genuine(hash, key, events[i])
    ensures GenuineCount(hash, key, events) >= n
    ensures n < |events| && !Genuine(hash, key, events[n]) ==> GenuineCount(hash, key, events) == n
  {
    if n > 0 {
      GenuineBefore(hash, key, events[1..], n - 1);
    }
  }

  lemma {:induction false} GenuineFrom(hash: Hash, key: Key, events: seq<Event>, i: nat)
    requires i < GenuineCount(hash, key, events)
    ensures Genuine(hash, key, events[i])
  {
    if i > 0 {
      GenuineFrom(hash, key, events[1..], i - 1);
    }
  }

  method VerifyAttestations(hash: Hash, events: seq<Event>, key: Option<Key>) returns (r: Check)
    ensures r == CheckFor(hash, key, events)
  {
    if key.None? {
      return Unattested;
    }
    if !ValidSecret(key.value) {
      return Refused;
    }
    var ids: set<Id> := {};
    for i := 0 to |events|
      invariant forall j :: 0 <= j < i ==> Genuine(hash, key.value, events[j])
      invariant forall id :: id in ids <==> NamedIn(events[..i], id)
    {
      GenuineBefore(hash, key.value, events, i);
      if events[i].attestation.None? {
        return Unattested;
      }
      if !Genuine(hash, key.value, events[i]) {
        return Refused;
      }
      NamedNext(events, i);
      ids := ids + {events[i].attestation.value.key};
    }
    GenuineBefore(hash, key.value, events, |events|);
    assert events[..|events|] == events;
    OneKeyNamed(events, ids);
    if |ids| != 1 {
      return Refused;
    }
    r := Attested(events[0].attestation.value.key);
  }

  ghost predicate NamedIn(events: seq<Event>, id: Id) {
    exists e :: e in events && e.attestation.Some? && e.attestation.value.key == id
  }

  lemma {:induction false} NamedNext(events: seq<Event>, i: nat)
    requires i < |events| && events[i].attestation.Some?
    ensures forall id :: NamedIn(events[..i + 1], id) <==> NamedIn(events[..i], id) || id == events[i].attestation.value.key
  {
    var next := events[..i + 1];
    assert next == events[..i] + [events[i]];
    forall id ensures NamedIn(next, id) <==> NamedIn(events[..i], id) || id == events[i].attestation.value.key {
      if NamedIn(events[..i], id) {
        var e :| e in events[..i] && e.attestation.Some? && e.attestation.value.key == id;
        assert e in next;
      }
      assert events[i] in next;
    }
  }

  /** The set of named keys is a singleton exactly for a non-empty stream that names one key. */
  lemma {:induction false} OneKeyNamed(events: seq<Event>, ids: set<Id>)
    requires forall i :: 0 <= i < |events| ==> events[i].attestation.Some?
    requires forall id :: id in ids <==> NamedIn(events, id)
    ensures |ids| == 1 <==> events != [] && SameKey(events)
  {
    if events == [] {
      assert ids == {};
    } else {
      var first := events[0].attestation.value.key;
      assert events[0] in events && first in ids;
      if SameKey(events) {
        forall id ensures id in ids <==> id == first {
          if id in ids {
            var e :| e in events && e.attestation.Some? && e.attestation.value.key == id;
          }
        }
        assert ids == {first};
      }
      if |ids| == 1 {
        Single(ids, first);
        forall i | 0 <= i < |events| ensures events[i].attestation.value.key == first {
          assert events[i] in events && NamedIn(events, events[i].attestation.value.key);
        }
      }
    }
  }

  lemma {:induction false} Single(ids: set<Id>, x: Id)
    requires |ids| == 1 && x in ids
    ensures forall y :: y in ids ==> y == x
  {
    var rest := ids - {x};
    assert ids == {x} + rest && |rest| == 0;
  }

  /** Attested under an identity exactly when there are events and all of them are signed under it. */
  lemma {:induction false} AttestedExactly(hash: Hash, key: Key, events: seq<Event>, id: Id)
    requires ValidSecret(key)
    ensures CheckFor(hash, Some(key), events) == Attested(id) <==> events != [] && AllSigned(hash, key, id, events)
  {
    if events != [] && AllSigned(hash, key, id, events) {
      forall i | 0 <= i < |events| ensures Genuine(hash, key, events[i]) {
        assert Signed(hash, key, id, events[i]);
      }
      GenuineBefore(hash, key, events, |events|);
      assert Signed(hash, key, id, events[0]);
    }
    if CheckFor(hash, Some(key), events) == Attested(id) {
      forall i | 0 <= i < |events| ensures Signed(hash, key, id, events[i]) {
        GenuineFrom(hash, key, events, i);
      }
    }
  }

  /** Round trip: what is attested under a key and an identity verifies under that key with that identity. */
  lemma {:induction false} AttestedVerifies(hash: Hash, events: seq<Event>, key: Key, id: Id)
    requires ValidSecret(key) && events != []
    ensures CheckFor(hash, Some(key), Map(Sign(hash, key, id), events)) == Attested(id)
  {
    SigningSigns(hash, key, id, events);
    AttestedExactly(hash, key, Map(Sign(hash, key, id), events), id);
  }

  // ---------------------------------------------------------------- which keys are not refused

  lemma {:induction false} SignedAt(hash: Hash, key: Key, id: Id, other: Key, events: seq<Event>, i: nat)
    requires i < |events|
    ensures var e := Map(Sign(hash, key, id), events)[i];
            && e.attestation == Some(Signature(hash, key, id, events[i]))
            && (Signed(hash, other, id, e) <==> SameCode(hash, key, other, id, events[i]))
            && (Genuine(hash, other, e) <==> SameCode(hash, key, other, id, events[i]))
  {
    MapAt(Sign(hash, key, id), events, i);
    assert Stripped(Sign(hash, key, id)(events[i])) == Stripped(events[i]);
  }

  /** Two keys give an event the same code under an identity. */
  predicate SameCode(hash: Hash, key: Key, other: Key, id: Id, e: Event) {
    hash.mac(other, id, Stripped(e)) == hash.mac(key, id, Stripped(e))
  }

  predicate SameCodes(hash: Hash, key: Key, other: Key, id: Id, events: seq<Event>) {
    forall i :: 0 <= i < |events| ==> SameCode(hash, key, other, id, events[i])
  }

  /** A stream without attestations is refused exactly for a key that is no secret. */
  lemma {:induction false} BareIsRefused(hash: Hash, events: seq<Event>, key: Option<Key>)
    requires events != [] && forall i :: 0 <= i < |events| ==> events[i].attestation.None?
    ensures CheckFor(hash, key, events) == Refused <==> key.Some? && !ValidSecret(key.value)
  {
  }

  /** A signed stream is refused exactly for a key that is no secret, or that gives some event another code. */
  lemma {:induction false} SignedIsRefused(hash: Hash, signer: Key, id: Id, events: seq<Event>, key: Option<Key>)
    requires events != []
    ensures CheckFor(hash, key, Map(Sign(hash, signer, id), events)) == Refused <==>
            key.Some? && (!ValidSecret(key.value) || !SameCodes(hash, signer, key.value, id, events))
  {
    var signed := Map(Sign(hash, signer, id), events);
    if key.Some? && ValidSecret(key.value) {
      var n := GenuineCount(hash, key.value, signed);
      forall i | 0 <= i < |events|
        ensures signed[i].attestation == Some(Signature(hash, signer, id, events[i]))
        ensures Signed(hash, key.value, id, signed[i]) <==> SameCode(hash, signer, key.value, id, events[i])
        ensures i < n ==> SameCode(hash, signer, key.value, id, events[i])
      {
        SignedAt(hash, signer, id, key.value, events, i);
        if i < n {
          GenuineFrom(hash, key.value, signed, i);
        }
      }
      if SameCodes(hash, signer, key.value, id, events) {
        AttestedExactly(hash, key.value, signed, id);
      }
    }
  }
}

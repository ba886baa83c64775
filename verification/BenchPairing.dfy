/** Pairing post-warm events: the groups are a perfect matching or the stream is refused. */
module BenchPairing {
  import opened Wrappers
  import opened Sequences
  import opened Listings
  import opened BenchRecords
  import opened BenchOrders
  import opened BenchPlan
  import opened BenchPlanning
  import opened BenchEvents

  datatype Pair = Pair(baseline: Event, cigar: Event)

  function PostWarm(): (r: Event -> bool) { (e: Event) => !e.warmup }

  function IsBaseline(): (r: Event -> bool) { (e: Event) => e.assignment.treatment == Baseline }

  function BaselineOf(): (r: Pair -> Event) { (p: Pair) => p.baseline }

  function PairIdOf(): (r: Event -> Id) { (e: Event) => e.assignment.common.pair }

  /** Everything but treatment, order, metrics and attestation agrees, and the orders differ. */
  predicate Mates(e: Event, f: Event) {
    && e.assignment.treatment != f.assignment.treatment
    && e.assignment.common == f.assignment.common
    && e.assignmentDigest == f.assignmentDigest && e.seedCommitment == f.seedCommitment
    && e.assignment.order != f.assignment.order
  }

  ghost predicate HasMate(post: seq<Event>, e: Event) {
    exists f :: f in post && Mates(e, f)
  }

  ghost predicate Matched(post: seq<Event>) {
    && post != []
    && NoRepeats(Map(EventKey(), post))
    && forall e :: e in post ==> HasMate(post, e)
  }

  // ---------------------------------------------------------------- groups

  datatype Group = Group(baseline: Option<Event>, cigar: Option<Event>) {
    function Of(t: Treatment): (r: Option<Event>) { if t == Baseline then baseline else cigar }

    function With(e: Event): (r: Group) {
      if e.assignment.treatment == Baseline then this.(baseline := Some(e)) else this.(cigar := Some(e))
    }
  }

  function At(groups: map<Id, Group>, k: PairKey): (r: Option<Event>) {
    if k.pair in groups then groups[k.pair].Of(k.treatment) else None
  }

  ghost predicate Held(groups: map<Id, Group>, keys: seq<Id>, post: seq<Event>) {
    && NoRepeats(Map(EventKey(), post))
    && (forall k :: At(groups, k).Some? <==> k in Map(EventKey(), post))
    && (forall k :: At(groups, k).Some? ==> At(groups, k).value in post && EventKey()(At(groups, k).value) == k)
    && (forall id :: id in keys <==> id in groups)
    && (forall id :: id in groups ==> groups[id].baseline.Some? || groups[id].cigar.Some?)
    && NoRepeats(keys)
  }

  method AddEvent(groups: map<Id, Group>, keys: seq<Id>, ghost post: seq<Event>, e: Event)
    returns (more: map<Id, Group>, ids: seq<Id>, ok: bool)
    requires Held(groups, keys, post)
    ensures ok <==> EventKey()(e) !in Map(EventKey(), post)
    ensures ok ==> Held(more, ids, post + [e])
  {
    var id := PairIdOf()(e);
    var group := if id in groups then groups[id] else Group(None, None);
    assert At(groups, EventKey()(e)) == group.Of(e.assignment.treatment);
    if group.Of(e.assignment.treatment).Some? {
      return groups, keys, false;
    }
    more := groups[id := group.With(e)];
    ids := if id in keys then keys else keys + [id];
    ok := true;
    NewKey(post, e);
    if id !in keys {
      assert NoRepeats([id]);
      ConcatNoRepeats(keys, [id]);
    }
    forall k ensures At(more, k) == if k == EventKey()(e) then Some(e) else At(groups, k) {
    }
  }

  lemma {:induction false} NewKey(post: seq<Event>, e: Event)
    requires NoRepeats(Map(EventKey(), post)) && EventKey()(e) !in Map(EventKey(), post)
    ensures Map(EventKey(), post + [e]) == Map(EventKey(), post) + [EventKey()(e)]
    ensures NoRepeats(Map(EventKey(), post + [e]))
  {
    MapConcat(EventKey(), post, [e]);
    assert Map(EventKey(), [e]) == [EventKey()(e)];
    assert NoRepeats([EventKey()(e)]);
    ConcatNoRepeats(Map(EventKey(), post), [EventKey()(e)]);
  }

  method GroupEvents(events: seq<Event>) returns (groups: map<Id, Group>, keys: seq<Id>, ok: bool)
    ensures ok <==> NoRepeats(Map(EventKey(), Filter(PostWarm(), events)))
    ensures ok ==> Held(groups, keys, Filter(PostWarm(), events))
  {
    groups, keys := map[], [];
    for i := 0 to |events|
      invariant Held(groups, keys, Filter(PostWarm(), events[..i]))
    {
      ghost var post := Filter(PostWarm(), events[..i]);
      ExtendPost(events, i);
      if !events[i].warmup {
        groups, keys, ok := AddEvent(groups, keys, post, events[i]);
        if !ok {
          return;
        }
      }
    }
    assert events[..|events|] == events;
    ok := true;
  }

  lemma {:induction false} ExtendPost(events: seq<Event>, i: nat)
    requires i < |events|
    ensures var post := Filter(PostWarm(), events[..i]);
            && Filter(PostWarm(), events[..i + 1]) == (if events[i].warmup then post else post + [events[i]])
            && (!events[i].warmup && EventKey()(events[i]) in Map(EventKey(), post)
                ==> !NoRepeats(Map(EventKey(), Filter(PostWarm(), events))))
  {
    var post := Filter(PostWarm(), events[..i]);
    assert events[..i + 1] == events[..i] + [events[i]];
    FilterConcat(PostWarm(), events[..i], [events[i]]);
    assert Filter(PostWarm(), [events[i]]) == if events[i].warmup then [] else [events[i]];
    if !events[i].warmup && EventKey()(events[i]) in Map(EventKey(), post) {
      assert events == events[..i] + events[i..];
      FilterConcat(PostWarm(), events[..i], events[i..]);
      var rest := Filter(PostWarm(), events[i..]);
      assert rest[0] == events[i];
      MapConcat(EventKey(), post, rest);
      assert Map(EventKey(), rest)[0] == EventKey()(events[i]);
      if NoRepeats(Map(EventKey(), post + rest)) {
        NoRepeatsPrefix(Map(EventKey(), post), Map(EventKey(), rest));
      }
    }
  }

  // ---------------------------------------------------------------- pairs

  predicate CompleteGroup(g: Group) {
    g.baseline.Some? && g.cigar.Some? && Mates(g.baseline.value, g.cigar.value)
  }

  /** One pair per group, in the order of the sorted pair identifiers. */
  ghost predicate Collected(groups: map<Id, Group>, ids: seq<Id>, pairs: seq<Pair>) {
    && |pairs| == |ids|
    && forall j :: 0 <= j < |ids| ==>
         && ids[j] in groups && CompleteGroup(groups[ids[j]])
         && pairs[j] == Pair(groups[ids[j]].baseline.value, groups[ids[j]].cigar.value)
  }

  /** Each post-warm event is in exactly one pair, and each pair is one baseline and its mate. */
  ghost predicate Pairing(events: seq<Event>, pairs: seq<Pair>) {
    && multiset(Map(BaselineOf(), pairs)) == multiset(Filter(IsBaseline(), Filter(PostWarm(), events)))
    && (forall p :: p in pairs ==> p.baseline.assignment.treatment == Baseline && Mates(p.baseline, p.cigar))
    && (forall p :: p in pairs ==> p.cigar in Filter(PostWarm(), events))
  }

  method Paired(events: seq<Event>) returns (r: Option<seq<Pair>>)
    ensures r.Some? <==> Matched(Filter(PostWarm(), events))
    ensures r.Some? ==> Pairing(events, r.value) && r.value != []
  {
    ghost var post := Filter(PostWarm(), events);
    var groups, keys, ok := GroupEvents(events);
    if !ok {
      return None;
    }
    var ids := SortIds(keys);
    SortByMultiset(ByName(), keys);
    PermutationNoRepeats(keys, ids);
    forall id ensures id in ids <==> id in groups {
      MultisetMember(ids, keys, id);
    }
    r := PairGroups(events, groups, keys, ids);
  }

  method PairGroups(ghost events: seq<Event>, groups: map<Id, Group>, ghost keys: seq<Id>, ids: seq<Id>) returns (r: Option<seq<Pair>>)
    requires Held(groups, keys, Filter(PostWarm(), events)) && NoRepeats(ids) && forall id :: id in ids <==> id in groups
    ensures r.Some? <==> Matched(Filter(PostWarm(), events))
    ensures r.Some? ==> Pairing(events, r.value) && r.value != []
  {
    ghost var post := Filter(PostWarm(), events);
    r := Collect(groups, ids);
    if r.None? {
      ghost var j :| 0 <= j < |ids| && !(ids[j] in groups && CompleteGroup(groups[ids[j]]));
      IncompleteGroup(groups, keys, post, ids[j]);
    } else if r.value == [] {
      NoGroups(groups, keys, post, ids);
      r := None;
    } else {
      CollectedIsMatched(groups, keys, post, ids, r.value);
      CollectedIsPairing(groups, keys, events, ids, r.value);
    }
  }

  method Collect(groups: map<Id, Group>, ids: seq<Id>) returns (r: Option<seq<Pair>>)
    ensures r.Some? ==> Collected(groups, ids, r.value)
    ensures r.None? ==> exists j :: 0 <= j < |ids| && !(ids[j] in groups && CompleteGroup(groups[ids[j]]))
  {
    var pairs: seq<Pair> := [];
    for i := 0 to |ids|
      invariant Collected(groups, ids[..i], pairs)
    {
      if ids[i] !in groups || !CompleteGroup(groups[ids[i]]) {
        return None;
      }
      pairs := pairs + [Pair(groups[ids[i]].baseline.value, groups[ids[i]].cigar.value)];
    }
    assert ids[..|ids|] == ids;
    r := Some(pairs);
  }

  lemma {:induction false} IncompleteGroup(groups: map<Id, Group>, keys: seq<Id>, post: seq<Event>, id: Id)
    requires Held(groups, keys, post) && id in groups && !CompleteGroup(groups[id])
    ensures !Matched(post)
  {
    var t := if groups[id].baseline.Some? then Baseline else Cigar;
    var other := if t == Baseline then Cigar else Baseline;
    assert At(groups, PairKey(id, t)).Some?;
    var e := At(groups, PairKey(id, t)).value;
    if HasMate(post, e) {
      var f :| f in post && Mates(e, f);
      assert EventKey()(f) == PairKey(id, other);
      MapMember(EventKey(), post, PairKey(id, other));
      assert At(groups, PairKey(id, other)).Some?;
      ImageDetermines(EventKey(), post, f, At(groups, PairKey(id, other)).value);
    }
  }

  lemma {:induction false} GroupOf(groups: map<Id, Group>, keys: seq<Id>, post: seq<Event>, e: Event)
    requires Held(groups, keys, post) && e in post
    ensures PairIdOf()(e) in groups && groups[PairIdOf()(e)].Of(e.assignment.treatment) == Some(e)
  {
    MapMember(EventKey(), post, EventKey()(e));
    assert At(groups, EventKey()(e)).Some?;
    ImageDetermines(EventKey(), post, e, At(groups, EventKey()(e)).value);
  }

  lemma {:induction false} NoGroups(groups: map<Id, Group>, keys: seq<Id>, post: seq<Event>, ids: seq<Id>)
    requires Held(groups, keys, post) && ids == [] && forall id :: id in ids <==> id in groups
    ensures !Matched(post)
  {
    if post != [] {
      GroupOf(groups, keys, post, post[0]);
    }
  }

  lemma {:induction false} CollectedIsMatched(groups: map<Id, Group>, keys: seq<Id>, post: seq<Event>, ids: seq<Id>, pairs: seq<Pair>)
    requires Held(groups, keys, post) && Collected(groups, ids, pairs) && pairs != []
    requires forall id :: id in ids <==> id in groups
    ensures Matched(post)
  {
    forall e | e in post ensures HasMate(post, e) {
      GroupOf(groups, keys, post, e);
      var id := PairIdOf()(e);
      var j :| 0 <= j < |ids| && ids[j] == id;
      var f := if e.assignment.treatment == Baseline then groups[id].cigar.value else groups[id].baseline.value;
      assert At(groups, PairKey(id, f.assignment.treatment)) == Some(f);
      assert f in post && Mates(e, f);
    }
    assert ids[0] in ids && ids[0] in groups;
    assert At(groups, PairKey(ids[0], Baseline)).Some?;
  }

  lemma {:induction false} CollectedIsPairing(groups: map<Id, Group>, keys: seq<Id>, events: seq<Event>, ids: seq<Id>, pairs: seq<Pair>)
    requires Held(groups, keys, Filter(PostWarm(), events)) && Collected(groups, ids, pairs) && NoRepeats(ids)
    requires forall id :: id in ids <==> id in groups
    ensures Pairing(events, pairs)
  {
    var post := Filter(PostWarm(), events);
    var baselines := Map(BaselineOf(), pairs);
    forall p | p in pairs
      ensures p.baseline.assignment.treatment == Baseline && Mates(p.baseline, p.cigar) && p.baseline in post && p.cigar in post
    {
      var j :| 0 <= j < |pairs| && pairs[j] == p;
      assert At(groups, PairKey(ids[j], Baseline)) == Some(p.baseline);
      assert At(groups, PairKey(ids[j], Cigar)) == Some(p.cigar);
    }
    BaselineIds(groups, keys, post, ids, pairs);
    NoRepeatsImage(PairIdOf(), baselines);
    NoRepeatsImage(EventKey(), post);
    FilterNoRepeats(IsBaseline(), post);
    forall e ensures e in baselines <==> e in Filter(IsBaseline(), post) {
      FilterMember(IsBaseline(), post, e);
      MapMember(BaselineOf(), pairs, e);
      if e in post && e.assignment.treatment == Baseline {
        GroupOf(groups, keys, post, e);
        var j :| 0 <= j < |ids| && ids[j] == PairIdOf()(e);
        assert BaselineOf()(pairs[j]) == e && pairs[j] in pairs;
      }
    }
    SameElements(baselines, Filter(IsBaseline(), post));
  }

  lemma {:induction false} BaselineIds(groups: map<Id, Group>, keys: seq<Id>, post: seq<Event>, ids: seq<Id>, pairs: seq<Pair>)
    requires Held(groups, keys, post) && Collected(groups, ids, pairs)
    ensures Map(PairIdOf(), Map(BaselineOf(), pairs)) == ids
  {
    var baselines := Map(BaselineOf(), pairs);
    forall j | 0 <= j < |ids| ensures Map(PairIdOf(), baselines)[j] == ids[j] {
      MapAt(BaselineOf(), pairs, j);
      MapAt(PairIdOf(), baselines, j);
      assert At(groups, PairKey(ids[j], Baseline)) == Some(pairs[j].baseline);
    }
  }

  lemma {:induction false} FilterNoRepeats<T>(p: T -> bool, xs: seq<T>)
    requires NoRepeats(xs)
    ensures NoRepeats(Filter(p, xs))
  {
    if xs != [] {
      FilterNoRepeats(p, xs[1..]);
      FilterMember(p, xs[1..], xs[0]);
      assert Filter(p, xs) == (if p(xs[0]) then [xs[0]] else []) + Filter(p, xs[1..]);
      if p(xs[0]) {
        assert Filter(p, xs)[1..] == Filter(p, xs[1..]);
      } else {
        assert Filter(p, xs) == Filter(p, xs[1..]);
      }
    }
  }
}

/** When a second coercion through a union changes nothing: exactly when no earlier alternative takes the coerced value. */
module SchemaAlternatives {
  import opened Json
  import opened SchemaCoercion

  // ---------------------------------------------------------------- coercion counts nodes

  predicate Grows(s: Step, nodes: nat) {
    s.nodes >= nodes && (s.result.Returned? ==> s.nodes > nodes)
  }

  lemma {:induction false} CoerceGrows(c: V.Context, schema: Json, value: Json, depth: nat, nodes: nat)
    ensures Grows(Coerce(c, schema, value, depth, nodes), nodes)
    decreases MAX_DEPTH + 1 - depth, 3
  {
    if depth <= MAX_DEPTH && nodes + 1 <= MAX_NODES {
      CountedGrows(c, schema, value, depth, nodes + 1);
    }
  }

  lemma {:induction false} CountedGrows(c: V.Context, schema: Json, value: Json, depth: nat, nodes: nat)
    requires depth <= MAX_DEPTH
    ensures CoerceCounted(c, schema, value, depth, nodes).nodes >= nodes
    decreases MAX_DEPTH + 1 - depth, 2
  {
    if V.IsReference(schema) {
      var target := Definition(c.root, Get(schema, "$ref").value.text);
      if target.Some? {
        CoerceGrows(c, target.value, value, depth + 1, nodes);
      }
    } else if V.Alternatives(schema).Some? {
      FirstGrows(c, V.Alternatives(schema).value, value, depth, nodes);
    } else if Get(schema, "type").Some? && Get(schema, "type").value.Array? {
      KindsGrow(c, schema, Get(schema, "type").value.items, value, depth, nodes);
    } else {
      TypedGrows(c, schema, value, depth, nodes);
    }
  }

  /** Going through alternatives counts nodes, unless none is taken. */
  lemma {:induction false} FirstGrows(c: V.Context, alternatives: seq<Json>, value: Json, depth: nat, nodes: nat)
    requires depth <= MAX_DEPTH
    ensures var s := CoerceFirst(c, alternatives, value, depth, nodes);
            s.nodes >= nodes && (s.result.Returned? && s.nodes == nodes ==> s.result.value == value)
    decreases MAX_DEPTH + 1 - depth, 0, |alternatives|
  {
    if alternatives != [] {
      CoerceGrows(c, alternatives[0], value, depth + 1, nodes);
      FirstGrows(c, alternatives[1..], value, depth, Coerce(c, alternatives[0], value, depth + 1, nodes).nodes);
    }
  }

  lemma {:induction false} KindsGrow(c: V.Context, schema: Json, kinds: seq<Json>, value: Json, depth: nat, nodes: nat)
    requires depth <= MAX_DEPTH
    ensures CoerceKinds(c, schema, kinds, value, depth, nodes).nodes >= nodes
    decreases MAX_DEPTH + 1 - depth, 1, |kinds|
  {
    KindsAreAlternatives(c, schema, kinds, value, depth, nodes);
    FirstGrows(c, Candidates(schema, kinds), value, depth, nodes);
  }

  lemma {:induction false} TypedGrows(c: V.Context, schema: Json, value: Json, depth: nat, nodes: nat)
    requires depth <= MAX_DEPTH
    ensures CoerceTyped(c, schema, value, depth, nodes).nodes >= nodes
    decreases MAX_DEPTH + 1 - depth, 1
  {
    if value.Array? && Get(schema, "items").Some? {
      ItemsGrow(c, Get(schema, "items").value, value.items, depth, nodes);
    } else if value.Object? {
      FieldsGrow(c, schema, value.fields, depth, nodes);
    }
  }

  lemma {:induction false} ItemsGrow(c: V.Context, schema: Json, items: seq<Json>, depth: nat, nodes: nat)
    requires depth <= MAX_DEPTH
    ensures CoerceItems(c, schema, items, depth, nodes).nodes >= nodes
    decreases MAX_DEPTH + 1 - depth, 0, |items|
  {
    if items != [] {
      CoerceGrows(c, schema, items[0], depth + 1, nodes);
      ItemsGrow(c, schema, items[1..], depth, Coerce(c, schema, items[0], depth + 1, nodes).nodes);
    }
  }

  lemma {:induction false} FieldsGrow(c: V.Context, schema: Json, fields: seq<Field>, depth: nat, nodes: nat)
    requires depth <= MAX_DEPTH
    ensures CoerceFields(c, schema, fields, depth, nodes).nodes >= nodes
    decreases MAX_DEPTH + 1 - depth, 0, |fields|
  {
    if fields != [] {
      var choice := ChooseField(c, schema, fields[0].name);
      if choice.Chosen? {
        CoerceGrows(c, choice.schema, fields[0].value, depth + 1, nodes);
      }
      FieldsGrow(c, schema, fields[1..], depth, CoerceField(c, schema, fields[0], depth, nodes).nodes);
    }
  }

  // ---------------------------------------------------------------- type lists are alternatives

  /** The schema once with each type of a list of types. */
  function Candidates(schema: Json, kinds: seq<Json>): (r: seq<Json>)
    ensures |r| == |kinds|
  {
    if kinds == [] then [] else [V.WithType(schema, kinds[0])] + Candidates(schema, kinds[1..])
  }

  lemma {:induction false} KindsAreAlternatives(c: V.Context, schema: Json, kinds: seq<Json>, value: Json, depth: nat, nodes: nat)
    requires depth <= MAX_DEPTH
    ensures CoerceKinds(c, schema, kinds, value, depth, nodes) == CoerceFirst(c, Candidates(schema, kinds), value, depth, nodes)
    decreases |kinds|
  {
    if kinds != [] {
      var candidate := V.WithType(schema, kinds[0]);
      assert Candidates(schema, kinds)[1..] == Candidates(schema, kinds[1..]);
      KindsAreAlternatives(c, schema, kinds[1..], value, depth, Coerce(c, candidate, value, depth + 1, nodes).nodes);
    }
  }

  // ---------------------------------------------------------------- values of one meaning fare alike without unions

  /** The same nodes counted, and the same failure unless both return. */
  predicate Alike(s: Step, t: Step) {
    s.nodes == t.nodes && (s.result.Returned? <==> t.result.Returned?) && (!s.result.Returned? ==> s.result == t.result)
  }

  predicate AlikeWalks<T(==)>(s: Walk<T>, t: Walk<T>) {
    s.nodes == t.nodes && (s.Walked? <==> t.Walked?) && (s.Stopped? ==> t.failure == s.failure)
  }

  lemma {:induction false} CoerceAlike(c: V.Context, schema: Json, v: Json, w: Json, depth: nat, nodes: nat)
    requires DefinitionsUnionFree(c.root) && UnionFree(schema) && Meaning(v) == Meaning(w)
    ensures Alike(Coerce(c, schema, v, depth, nodes), Coerce(c, schema, w, depth, nodes))
    decreases MAX_DEPTH + 1 - depth, 3
  {
    if depth <= MAX_DEPTH && nodes + 1 <= MAX_NODES {
      CountedAlike(c, schema, v, w, depth, nodes + 1);
    }
  }

  lemma {:induction false} CountedAlike(c: V.Context, schema: Json, v: Json, w: Json, depth: nat, nodes: nat)
    requires DefinitionsUnionFree(c.root) && UnionFree(schema) && Meaning(v) == Meaning(w) && depth <= MAX_DEPTH
    ensures Alike(CoerceCounted(c, schema, v, depth, nodes), CoerceCounted(c, schema, w, depth, nodes))
    decreases MAX_DEPTH + 1 - depth, 2
  {
    if schema.Object? || schema.Array? {
      if V.IsReference(schema) {
        var reference := Get(schema, "$ref").value.text;
        if Definition(c.root, reference).Some? {
          DefinitionUnionFree(c.root, reference);
          CoerceAlike(c, Definition(c.root, reference).value, v, w, depth + 1, nodes);
        }
      } else {
        TypeIsNoUnion(schema);
        CountedIsTyped(c, schema, v, depth, nodes);
        CountedIsTyped(c, schema, w, depth, nodes);
        TypedAlike(c, schema, v, w, depth, nodes);
      }
    }
  }

  lemma {:induction false} TypedAlike(c: V.Context, schema: Json, v: Json, w: Json, depth: nat, nodes: nat)
    requires DefinitionsUnionFree(c.root) && UnionFree(schema) && Meaning(v) == Meaning(w) && depth <= MAX_DEPTH
    ensures Alike(CoerceTyped(c, schema, v, depth, nodes), CoerceTyped(c, schema, w, depth, nodes))
    decreases MAX_DEPTH + 1 - depth, 1
  {
    if v.Array? {
      ArraysAlike(c, schema, v, w, depth, nodes);
    } else if v.Object? {
      FieldsAlike(c, schema, v.fields, w.fields, depth, nodes);
    }
  }

  lemma {:induction false} ArraysAlike(c: V.Context, schema: Json, v: Json, w: Json, depth: nat, nodes: nat)
    requires DefinitionsUnionFree(c.root) && UnionFree(schema) && Meaning(v) == Meaning(w) && v.Array? && depth <= MAX_DEPTH
    ensures Alike(CoerceTyped(c, schema, v, depth, nodes), CoerceTyped(c, schema, w, depth, nodes))
    decreases MAX_DEPTH + 1 - depth, 0, |v.items| + 1
  {
    if Get(schema, "items").Some? {
      KeywordUnionFreeAt(schema.fields, "items");
      assert KeywordUnionFree(Field("items", Get(schema, "items").value));
      ItemsAlike(c, Get(schema, "items").value, v.items, w.items, depth, nodes);
    }
  }

  lemma {:induction false} ItemsAlike(c: V.Context, schema: Json, xs: seq<Json>, ys: seq<Json>, depth: nat, nodes: nat)
    requires DefinitionsUnionFree(c.root) && UnionFree(schema) && ItemsMeaning(xs) == ItemsMeaning(ys) && depth <= MAX_DEPTH
    ensures AlikeWalks(CoerceItems(c, schema, xs, depth, nodes), CoerceItems(c, schema, ys, depth, nodes))
    decreases MAX_DEPTH + 1 - depth, 0, |xs|
  {
    if xs != [] && ys != [] {
      assert ItemsMeaning(xs)[0] == ItemsMeaning(ys)[0] && ItemsMeaning(xs)[1..] == ItemsMeaning(ys)[1..];
      CoerceAlike(c, schema, xs[0], ys[0], depth + 1, nodes);
      ItemsAlike(c, schema, xs[1..], ys[1..], depth, Coerce(c, schema, xs[0], depth + 1, nodes).nodes);
    }
  }

  lemma {:induction false} FieldsAlike(c: V.Context, schema: Json, xs: seq<Field>, ys: seq<Field>, depth: nat, nodes: nat)
    requires DefinitionsUnionFree(c.root) && UnionFree(schema) && FieldsMeaning(xs) == FieldsMeaning(ys) && depth <= MAX_DEPTH
    ensures AlikeWalks(CoerceFields(c, schema, xs, depth, nodes), CoerceFields(c, schema, ys, depth, nodes))
    decreases MAX_DEPTH + 1 - depth, 0, |xs|
  {
    if xs != [] && ys != [] {
      assert FieldsMeaning(xs)[0] == FieldsMeaning(ys)[0] && FieldsMeaning(xs)[1..] == FieldsMeaning(ys)[1..];
      var choice := ChooseField(c, schema, xs[0].name);
      if choice.Chosen? {
        ChosenUnionFree(c, schema, xs[0].name);
        CoerceAlike(c, choice.schema, xs[0].value, ys[0].value, depth + 1, nodes);
      }
      assert Alike(CoerceField(c, schema, xs[0], depth, nodes), CoerceField(c, schema, ys[0], depth, nodes));
      FieldsAlike(c, schema, xs[1..], ys[1..], depth, CoerceField(c, schema, xs[0], depth, nodes).nodes);
    }
  }

  // ---------------------------------------------------------------- when a union settles

  predicate AllUnionFree(alternatives: seq<Json>) {
    forall i :: 0 <= i < |alternatives| ==> UnionFree(alternatives[i])
  }

  /** An alternative does not take a value: coercing it or validating the outcome fails. */
  predicate Refuses(c: V.Context, alternative: Json, value: Json, depth: nat, nodes: nat) {
    Settle(c, alternative, Coerce(c, alternative, value, depth + 1, nodes).result, depth) == Invalid
  }

  /** Every alternative before the one that takes a value also refuses another value. */
  predicate EarlierRefuse(c: V.Context, alternatives: seq<Json>, value: Json, other: Json, depth: nat, nodes: nat) {
    alternatives == [] || (Refuses(c, alternatives[0], value, depth, nodes) ==>
      && Refuses(c, alternatives[0], other, depth, nodes)
      && EarlierRefuse(c, alternatives[1..], value, other, depth, Coerce(c, alternatives[0], value, depth + 1, nodes).nodes))
  }

  /** The alternatives are gone through again with the same outcome exactly when the earlier ones refuse that outcome. */
  lemma {:induction false} FirstSettles(c: V.Context, alternatives: seq<Json>, value: Json, depth: nat, nodes: nat, other: Json)
    requires DefinitionsUnionFree(c.root) && AllUnionFree(alternatives) && depth <= MAX_DEPTH
    requires CoerceFirst(c, alternatives, value, depth, nodes).result == Returned(other)
    ensures CoerceFirst(c, alternatives, other, depth, nodes) == CoerceFirst(c, alternatives, value, depth, nodes) <==>
            EarlierRefuse(c, alternatives, value, other, depth, nodes)
    decreases |alternatives|
  {
    if alternatives != [] {
      var s := Coerce(c, alternatives[0], value, depth + 1, nodes);
      if Refuses(c, alternatives[0], value, depth, nodes) {
        FirstKeepsMeaning(c, alternatives, value, depth, nodes);
        CoerceAlike(c, alternatives[0], value, other, depth + 1, nodes);
        FirstSettles(c, alternatives[1..], value, depth, s.nodes, other);
        FirstGrows(c, alternatives[1..], value, depth, s.nodes);
      } else {
        CoerceIsIdempotent(c, alternatives[0], value, depth + 1, nodes);
      }
    }
  }

  /** What a schema chooses between, by alternatives or by a list of types. */
  function Choices(schema: Json): (r: seq<Json>) {
    match V.Alternatives(schema)
    case Some(alternatives) => alternatives
    case None =>
      match Get(schema, "type")
      case Some(Array(kinds)) => Candidates(schema, kinds)
      case _ => []
  }

  predicate IsUnion(schema: Json) {
    && schema.Object? && !V.IsReference(schema)
    && (V.Alternatives(schema).Some? || (Get(schema, "type").Some? && Get(schema, "type").value.Array?))
  }

  lemma {:induction false} CountedIsFirst(c: V.Context, schema: Json, value: Json, depth: nat, nodes: nat)
    requires IsUnion(schema) && depth <= MAX_DEPTH
    ensures CoerceCounted(c, schema, value, depth, nodes) == CoerceFirst(c, Choices(schema), value, depth, nodes)
  {
    if V.Alternatives(schema).None? {
      KindsAreAlternatives(c, schema, Get(schema, "type").value.items, value, depth, nodes);
    }
  }

  /**
    A union of union-free choices: coercing a returned value again returns it unchanged if and only if every choice
    before the one that was taken refuses the returned value as well.
    */
  lemma {:induction false} UnionSettles(c: V.Context, schema: Json, value: Json, depth: nat, nodes: nat)
    requires DefinitionsUnionFree(c.root) && IsUnion(schema) && AllUnionFree(Choices(schema))
    ensures var s := Coerce(c, schema, value, depth, nodes);
            s.result.Returned? ==>
            (Coerce(c, schema, s.result.value, depth, nodes) == s <==>
             EarlierRefuse(c, Choices(schema), value, s.result.value, depth, nodes + 1))
  {
    var s := Coerce(c, schema, value, depth, nodes);
    if s.result.Returned? {
      CountedIsFirst(c, schema, value, depth, nodes + 1);
      CountedIsFirst(c, schema, s.result.value, depth, nodes + 1);
      FirstSettles(c, Choices(schema), value, depth, nodes + 1, s.result.value);
    }
  }
}

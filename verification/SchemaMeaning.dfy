/** The rewrite keeps the meaning of schemas on null-free values. */
module SchemaMeaning {
  import opened Wrappers
  import opened Json
  import opened SchemaValidation
  import opened SchemaNormalisation

  /** The rewritten run has stayed within bounds and spent no more than the original. */
  predicate Within(rewritten: Budget, original: Budget) {
    !original.hit && !rewritten.hit && rewritten.nodes <= original.nodes
  }

  predicate Agree(rewritten: Outcome, original: Outcome) {
    Within(rewritten.budget, original.budget) && (rewritten.verdict == Accept <==> original.verdict == Accept)
  }

  /** What every step of the proof assumes of the schemas and the value. */
  predicate Scope(c: Context, schema: Json, value: Json) {
    WellFormed(c.root) && WellFormed(schema) && NullFree(value)
  }

  // ---------------------------------------------------------------- replacing the type keyword

  lemma {:induction false} SetTypeWellFormed(fields: seq<Field>, kind: Json)
    requires KeywordsWellFormed(fields)
    ensures KeywordsWellFormed(SetField(fields, "type", kind))
  {
    assert KeywordWellFormed(Field("type", kind));
    if fields == [] {
      assert [Field("type", kind)][1..] == [];
    } else {
      SetTypeWellFormed(fields[1..], kind);
      assert SetField(fields, "type", kind)[1..] ==
        if fields[0].name == "type" then fields[1..] else SetField(fields[1..], "type", kind);
    }
  }

  lemma {:induction false} SetTypeRewritten(fields: seq<Field>, kind: Json)
    requires !kind.Array?
    ensures RewriteFields(SetField(fields, "type", kind)) == SetField(RewriteFields(fields), "type", OmissionOnly(kind))
  {
    assert RewriteField(Field("type", kind)) == Field("type", OmissionOnly(kind));
    if fields == [] {
      assert [Field("type", kind)][1..] == [];
    } else {
      SetTypeRewritten(fields[1..], kind);
      assert RewriteFields(fields)[1..] == RewriteFields(fields[1..]);
      assert SetField(fields, "type", kind)[1..] ==
        if fields[0].name == "type" then fields[1..] else SetField(fields[1..], "type", kind);
    }
  }

  lemma {:induction false} SetFieldAgain(fields: seq<Field>, name: string, a: Json, b: Json)
    ensures SetField(SetField(fields, name, a), name, b) == SetField(fields, name, b)
  {
    if fields == [] {
      assert [Field(name, a)][1..] == [];
    } else if fields[0].name == name {
      assert ([Field(name, a)] + fields[1..])[1..] == fields[1..];
    } else {
      SetFieldAgain(fields[1..], name, a, b);
      assert ([fields[0]] + SetField(fields[1..], name, a))[1..] == SetField(fields[1..], name, a);
    }
  }

  /** No keyword decides before the type does, and the constant, if any, is met. */
  predicate Typed(schema: Json) {
    schema.Object? && !IsReference(schema) && Alternatives(schema).None?
  }

  predicate MeetsConst(schema: Json, value: Json) {
    Get(schema, "const").None? || StrictlyEqual(value, Get(schema, "const").value)
  }

  /** Replacing the type leaves every other keyword alone. */
  lemma {:induction false} WithTypeReads(schema: Json, kind: Json)
    requires Typed(schema)
    ensures Typed(WithType(schema, kind)) && Get(WithType(schema, kind), "type") == Some(kind)
    ensures Get(WithType(schema, kind), "const") == Get(schema, "const")
  {
    LookupSetField(schema.fields, "type", kind, "type");
    LookupSetField(schema.fields, "type", kind, "$ref");
    LookupSetField(schema.fields, "type", kind, "oneOf");
    LookupSetField(schema.fields, "type", kind, "anyOf");
    LookupSetField(schema.fields, "type", kind, "const");
  }

  lemma {:induction false} RewrittenIsTyped(schema: Json, value: Json)
    requires Typed(schema) && WellFormed(schema)
    ensures Typed(OmissionOnly(schema)) && MeetsConst(OmissionOnly(schema), value) == MeetsConst(schema, value)
  {
    ReferenceRewritten(schema);
    AlternativesRewritten(schema);
    ConstKept(schema, value);
  }

  /** Fixing one kind of a union keeps a schema in scope, and for a kind that is no list commutes with the rewrite. */
  lemma {:induction false} WithTypeKept(schema: Json, kind: Json)
    requires Typed(schema) && WellFormed(schema)
    ensures WellFormed(WithType(schema, kind))
    ensures !kind.Array? ==> WithType(OmissionOnly(schema), OmissionOnly(kind)) == OmissionOnly(WithType(schema, kind))
  {
    SetTypeWellFormed(schema.fields, kind);
    if !kind.Array? {
      SetTypeRewritten(schema.fields, kind);
    }
  }

  /** Past the earlier keywords, counted validation is the type check. */
  lemma {:induction false} CountedIsType(c: Context, schema: Json, value: Json, depth: nat, b: Budget)
    requires Typed(schema) && depth <= MAX_DEPTH
    ensures ValidateCounted(c, schema, value, depth, b) ==
            if MeetsConst(schema, value) then ValidateType(c, schema, value, depth, b) else Outcome(Reject, b)
  {
  }

  // ---------------------------------------------------------------- dropped alternatives accept nothing

  predicate NullKinds(kinds: seq<Json>) {
    kinds == [] || ((kinds[0] == Text("null") || kinds[0] == Array([Text("null")])) && NullKinds(kinds[1..]))
  }

  lemma {:induction false} NullKindsOf(kinds: seq<Json>)
    requires DropNull(kinds) == [] || DropNull(kinds) == [Array([Text("null")])]
    ensures NullKinds(kinds)
  {
    if kinds != [] {
      if kinds[0] != Text("null") {
        assert DropNull(kinds)[0] == kinds[0] && DropNull(kinds)[1..] == DropNull(kinds[1..]);
      }
      NullKindsOf(kinds[1..]);
    }
  }

  lemma {:induction false} NullListRejects(c: Context, schema: Json, kinds: seq<Json>, value: Json, depth: nat, b: Budget)
    requires Typed(schema) && NullKinds(kinds) && !value.Null? && depth <= MAX_DEPTH
    ensures ProbeKinds(c, schema, kinds, value, depth, b).matches == 0
    decreases MAX_DEPTH + 1 - depth, |kinds|
  {
    if kinds != [] {
      var fixed := WithType(schema, kinds[0]);
      WithTypeReads(schema, kinds[0]);
      if kinds[0] == Text("null") {
        NullTypeRejects(c, fixed, value, depth + 1, b);
      } else if depth < MAX_DEPTH {
        NullTypesReject(c, fixed, [Text("null")], value, depth + 1, b);
      }
      NullListRejects(c, schema, kinds[1..], value, depth, Validate(c, fixed, value, depth + 1, b).budget);
    }
  }

  lemma {:induction false} NullTypesReject(c: Context, schema: Json, kinds: seq<Json>, value: Json, depth: nat, b: Budget)
    requires Typed(schema) && Get(schema, "type") == Some(Array(kinds)) && NullKinds(kinds) && !value.Null? && depth <= MAX_DEPTH
    ensures Validate(c, schema, value, depth, b).verdict != Accept
    decreases MAX_DEPTH + 1 - depth, |kinds| + 1
  {
    var counted := Budget(b.nodes + 1, b.hit);
    NullListRejects(c, schema, kinds, value, depth, counted);
    CountedIsType(c, schema, value, depth, counted);
  }

  lemma {:induction false} NullOnlyRejects(c: Context, schema: Json, value: Json, depth: nat, b: Budget)
    requires Typed(schema) && NullOnly(Get(schema, "type")) && !value.Null?
    ensures Validate(c, schema, value, depth, b).verdict != Accept
  {
    if Get(schema, "type") == Some(Text("null")) {
      NullTypeRejects(c, schema, value, depth, b);
    } else if depth <= MAX_DEPTH {
      NullKindsOf(Get(schema, "type").value.items);
      NullTypesReject(c, schema, Get(schema, "type").value.items, value, depth, b);
    }
  }

  // ---------------------------------------------------------------- the induction

  lemma {:induction false} Keeps(c: Context, schema: Json, value: Json, depth: nat, b: Budget, depth': nat, b': Budget)
    requires Scope(c, schema, value) && depth' <= depth && Within(b', b)
    requires !Validate(c, schema, value, depth, b).budget.hit
    ensures Agree(Validate(RewriteContext(c), OmissionOnly(schema), value, depth', b'), Validate(c, schema, value, depth, b))
    decreases MAX_DEPTH + 1 - depth, 6
  {
    KeepsCounted(c, schema, value, depth, Budget(b.nodes + 1, b.hit), depth', Budget(b'.nodes + 1, b'.hit));
  }

  lemma {:induction false} KeepsCounted(c: Context, schema: Json, value: Json, depth: nat, b: Budget, depth': nat, b': Budget)
    requires Scope(c, schema, value) && depth' <= depth <= MAX_DEPTH && Within(b', b)
    requires !ValidateCounted(c, schema, value, depth, b).budget.hit
    ensures Agree(ValidateCounted(RewriteContext(c), OmissionOnly(schema), value, depth', b'), ValidateCounted(c, schema, value, depth, b))
    decreases MAX_DEPTH + 1 - depth, 5
  {
    if schema.Object? || schema.Array? {
      ReferenceRewritten(schema);
      if IsReference(schema) {
        KeepsReference(c, schema, value, depth, b, depth', b');
      } else {
        AlternativesRewritten(schema);
        if Alternatives(schema).Some? {
          KeepsProbe(c, Alternatives(schema).value, value, depth, b, depth', b');
        } else {
          ConstKept(schema, value);
          if Get(schema, "const").None? || StrictlyEqual(value, Get(schema, "const").value) {
            KeepsType(c, schema, value, depth, b, depth', b');
          }
        }
      }
    }
  }

  lemma {:induction false} ConstKept(schema: Json, value: Json)
    ensures (Get(schema, "const").None? || StrictlyEqual(value, Get(schema, "const").value)) <==>
            (Get(OmissionOnly(schema), "const").None? || StrictlyEqual(value, Get(OmissionOnly(schema), "const").value))
  {
    PlainKeyword(schema, "const");
  }

  lemma {:induction false} KeepsReference(c: Context, schema: Json, value: Json, depth: nat, b: Budget, depth': nat, b': Budget)
    requires Scope(c, schema, value) && depth' <= depth <= MAX_DEPTH && Within(b', b)
    requires schema.Object? && IsReference(schema) && IsReference(OmissionOnly(schema))
    requires Get(OmissionOnly(schema), "$ref") == Get(schema, "$ref")
    requires !ValidateCounted(c, schema, value, depth, b).budget.hit
    ensures Agree(ValidateCounted(RewriteContext(c), OmissionOnly(schema), value, depth', b'), ValidateCounted(c, schema, value, depth, b))
    decreases MAX_DEPTH + 1 - depth, 4
  {
    var reference := Get(schema, "$ref").value.text;
    ResolveRewritten(c.root, reference);
    if Resolve(c.root, reference).Some? {
      Keeps(c, Resolve(c.root, reference).value, value, depth + 1, b, depth' + 1, b');
    }
  }

  predicate AgreeTally(rewritten: Tally, original: Tally) {
    Within(rewritten.budget, original.budget) && rewritten.matches == original.matches
  }

  lemma {:induction false} KeepsProbe(c: Context, variants: seq<Json>, value: Json, depth: nat, b: Budget, depth': nat, b': Budget)
    requires WellFormed(c.root) && VariantsWellFormed(variants) && NullFree(value)
    requires depth' <= depth <= MAX_DEPTH && Within(b', b)
    requires !Probe(c, variants, value, depth, b).budget.hit
    ensures AgreeTally(Probe(RewriteContext(c), DropNullSchemas(RewriteItems(variants)), value, depth', b'),
                       Probe(c, variants, value, depth, b))
    decreases MAX_DEPTH + 1 - depth, 0, |variants|
  {
    if variants != [] {
      var o := Validate(c, variants[0], value, depth + 1, b);
      DropNullFirst(variants);
      if IsNullSchema(OmissionOnly(variants[0])) {
        NullSchemaOrigin(variants[0]);
        NullOnlyRejects(c, variants[0], value, depth + 1, b);
        KeepsProbe(c, variants[1..], value, depth, o.budget, depth', b');
      } else {
        Keeps(c, variants[0], value, depth + 1, b, depth' + 1, b');
        var o' := Validate(RewriteContext(c), OmissionOnly(variants[0]), value, depth' + 1, b');
        KeepsProbe(c, variants[1..], value, depth, o.budget, depth', o'.budget);
        ProbeFirst(RewriteContext(c), OmissionOnly(variants[0]), DropNullSchemas(RewriteItems(variants[1..])), value, depth', b');
      }
    }
  }

  lemma {:induction false} DropNullFirst(variants: seq<Json>)
    requires variants != []
    ensures var rest := DropNullSchemas(RewriteItems(variants[1..]));
            DropNullSchemas(RewriteItems(variants)) ==
            if IsNullSchema(OmissionOnly(variants[0])) then rest else [OmissionOnly(variants[0])] + rest
  {
    assert RewriteItems(variants)[1..] == RewriteItems(variants[1..]);
  }

  lemma {:induction false} ProbeFirst(c: Context, first: Json, rest: seq<Json>, value: Json, depth: nat, b: Budget)
    requires depth <= MAX_DEPTH
    ensures var o := Validate(c, first, value, depth + 1, b);
            var t := Probe(c, rest, value, depth, o.budget);
            Probe(c, [first] + rest, value, depth, b) == Tally((if o.verdict == Accept then 1 else 0) + t.matches, t.budget)
  {
    assert ([first] + rest)[1..] == rest;
  }

  lemma {:induction false} KeepsType(c: Context, schema: Json, value: Json, depth: nat, b: Budget, depth': nat, b': Budget)
    requires Scope(c, schema, value) && depth' <= depth <= MAX_DEPTH && Within(b', b)
    requires (schema.Object? ==> Typed(schema)) && MeetsConst(schema, value)
    requires !ValidateType(c, schema, value, depth, b).budget.hit
    ensures Agree(ValidateType(RewriteContext(c), OmissionOnly(schema), value, depth', b'), ValidateType(c, schema, value, depth, b))
    decreases MAX_DEPTH + 1 - depth, 4
  {
    var kind := KindOf(Get(schema, "type"));
    if kind.Union? {
      KeepsUnion(c, schema, kind.kinds, value, depth, b, depth', b');
    } else if kind.ArrayKind? || kind.ObjectKind? || kind.OtherKind? {
      KeepsStructure(c, schema, value, depth, b, depth', b');
    } else {
      KeepsScalar(c, schema, value, depth, b, depth', b');
    }
  }

  /** A declared type that is no list is not rewritten. */
  lemma {:induction false} SameKind(schema: Json)
    requires !KindOf(Get(schema, "type")).Union?
    ensures KindOf(Get(OmissionOnly(schema), "type")) == KindOf(Get(schema, "type"))
  {
    GetRewritten(schema, "type");
  }

  lemma {:induction false} KeepsScalar(c: Context, schema: Json, value: Json, depth: nat, b: Budget, depth': nat, b': Budget)
    requires depth' <= depth <= MAX_DEPTH && Within(b', b)
    requires KindOf(Get(schema, "type")) in {NullKind, StringKind, NumberKind, BoolKind}
    ensures Agree(ValidateType(RewriteContext(c), OmissionOnly(schema), value, depth', b'), ValidateType(c, schema, value, depth, b))
  {
    SameKind(schema);
    StringKept(c, schema, value);
    IntegerKept(schema, value);
  }

  lemma {:induction false} KeepsStructure(c: Context, schema: Json, value: Json, depth: nat, b: Budget, depth': nat, b': Budget)
    requires Scope(c, schema, value) && depth' <= depth <= MAX_DEPTH && Within(b', b)
    requires KindOf(Get(schema, "type")) in {ArrayKind, ObjectKind, OtherKind}
    requires !ValidateType(c, schema, value, depth, b).budget.hit
    ensures Agree(ValidateType(RewriteContext(c), OmissionOnly(schema), value, depth', b'), ValidateType(c, schema, value, depth, b))
    decreases MAX_DEPTH + 1 - depth, 3, 1
  {
    SameKind(schema);
    DescriptionKept(schema);
    if KindOf(Get(schema, "type")).ArrayKind? {
      KeepsArray(c, schema, value, depth, b, depth', b');
    } else if KindOf(Get(schema, "type")).ObjectKind? || DescribesObject(schema) {
      KeepsObject(c, schema, value, depth, b, depth', b');
    }
  }

  lemma {:induction false} DescriptionKept(schema: Json)
    ensures DescribesObject(OmissionOnly(schema)) == DescribesObject(schema)
  {
    PlainKeyword(schema, "properties");
    PlainKeyword(schema, "additionalProperties");
  }

  // ---------------------------------------------------------------- type unions

  lemma {:induction false} KeepsUnion(c: Context, schema: Json, kinds: seq<Json>, value: Json, depth: nat, b: Budget, depth': nat, b': Budget)
    requires Scope(c, schema, value) && depth' <= depth <= MAX_DEPTH && Within(b', b)
    requires Typed(schema) && MeetsConst(schema, value) && Get(schema, "type") == Some(Array(kinds))
    requires !ProbeKinds(c, schema, kinds, value, depth, b).budget.hit
    ensures Agree(ValidateType(RewriteContext(c), OmissionOnly(schema), value, depth', b'), ValidateType(c, schema, value, depth, b))
    decreases MAX_DEPTH + 1 - depth, 3
  {
    RewrittenUnion(schema, kinds);
    if Text("null") in kinds && |DropNull(kinds)| == 1 {
      KeepsSingle(c, schema, kinds, value, depth, b, depth', b');
    } else {
      KeepsKinds(c, schema, kinds, value, depth, b, depth', b');
    }
  }

  /** What the type keyword of a union becomes. */
  lemma {:induction false} RewrittenUnion(schema: Json, kinds: seq<Json>)
    requires Get(schema, "type") == Some(Array(kinds))
    ensures Get(OmissionOnly(schema), "type") ==
            Some(if Text("null") in kinds && |DropNull(kinds)| == 1 then OmissionOnly(DropNull(kinds)[0]) else Array(DropNull(RewriteItems(kinds))))
  {
    GetRewritten(schema, "type");
    RewrittenKinds(kinds);
    if Text("null") !in kinds {
      DropNullKeepsAll(RewriteItems(kinds));
    }
  }

  lemma {:induction false} DropNullKeepsAll(kinds: seq<Json>)
    requires Text("null") !in kinds
    ensures DropNull(kinds) == kinds
  {
    if kinds != [] {
      DropNullKeepsAll(kinds[1..]);
    }
  }

  /** One kind on both sides: a nested list of kinds is rewritten without dropping null from it. */
  lemma {:induction false} KeepsKind(c: Context, schema: Json, kind: Json, value: Json, depth: nat, b: Budget, depth': nat, b': Budget)
    requires Scope(c, schema, value) && Typed(schema) && depth' <= depth && Within(b', b)
    requires !Validate(c, WithType(schema, kind), value, depth, b).budget.hit
    ensures Agree(Validate(RewriteContext(c), WithType(OmissionOnly(schema), OmissionOnly(kind)), value, depth', b'),
                  Validate(c, WithType(schema, kind), value, depth, b))
    decreases MAX_DEPTH + 1 - depth, 8
  {
    KeepsKindCounted(c, schema, kind, value, depth, Budget(b.nodes + 1, b.hit), depth', Budget(b'.nodes + 1, b'.hit));
  }

  lemma {:induction false} KeepsKindCounted(c: Context, schema: Json, kind: Json, value: Json, depth: nat, b: Budget, depth': nat, b': Budget)
    requires Scope(c, schema, value) && Typed(schema) && depth' <= depth <= MAX_DEPTH && Within(b', b)
    requires !ValidateCounted(c, WithType(schema, kind), value, depth, b).budget.hit
    ensures Agree(ValidateCounted(RewriteContext(c), WithType(OmissionOnly(schema), OmissionOnly(kind)), value, depth', b'),
                  ValidateCounted(c, WithType(schema, kind), value, depth, b))
    decreases MAX_DEPTH + 1 - depth, 7
  {
    WithTypeKept(schema, kind);
    if kind.Array? {
      KeepsNested(c, schema, kind.items, value, depth, b, depth', b');
    } else {
      KeepsCounted(c, WithType(schema, kind), value, depth, b, depth', b');
    }
  }

  lemma {:induction false} KeepsNested(c: Context, schema: Json, kinds: seq<Json>, value: Json, depth: nat, b: Budget, depth': nat, b': Budget)
    requires Scope(c, schema, value) && Typed(schema) && depth' <= depth <= MAX_DEPTH && Within(b', b)
    requires !ValidateCounted(c, WithType(schema, Array(kinds)), value, depth, b).budget.hit
    ensures Agree(ValidateCounted(RewriteContext(c), WithType(OmissionOnly(schema), Array(RewriteItems(kinds))), value, depth', b'),
                  ValidateCounted(c, WithType(schema, Array(kinds)), value, depth, b))
    decreases MAX_DEPTH + 1 - depth, 6
  {
    RewrittenIsTyped(schema, value);
    NestedIsProbe(c, schema, kinds, value, depth, b);
    NestedIsProbe(RewriteContext(c), OmissionOnly(schema), RewriteItems(kinds), value, depth', b');
    if MeetsConst(schema, value) {
      KeepsEachKind(c, schema, kinds, value, depth, b, depth', b');
    }
  }

  /** Validating a list of kinds is probing each of them. */
  lemma {:induction false} NestedIsProbe(c: Context, schema: Json, kinds: seq<Json>, value: Json, depth: nat, b: Budget)
    requires Typed(schema) && depth <= MAX_DEPTH
    ensures var t := ProbeKinds(c, schema, kinds, value, depth, b);
            ValidateCounted(c, WithType(schema, Array(kinds)), value, depth, b) ==
            if MeetsConst(schema, value) then Outcome(if t.matches == 1 then Accept else Reject, t.budget) else Outcome(Reject, b)
  {
    var fixed := WithType(schema, Array(kinds));
    WithTypeReads(schema, Array(kinds));
    CountedIsType(c, fixed, value, depth, b);
    SameProbe(c, schema, Array(kinds), kinds, value, depth, b);
    assert KindOf(Get(fixed, "type")) == Union(kinds);
  }

  /** Probing kinds replaces the type, so the type a schema had before does not matter. */
  lemma {:induction false} SameProbe(c: Context, schema: Json, kind: Json, kinds: seq<Json>, value: Json, depth: nat, b: Budget)
    requires schema.Object? && depth <= MAX_DEPTH
    ensures ProbeKinds(c, WithType(schema, kind), kinds, value, depth, b) == ProbeKinds(c, schema, kinds, value, depth, b)
    decreases |kinds|
  {
    if kinds != [] {
      SetFieldAgain(schema.fields, "type", kind, kinds[0]);
      assert WithType(WithType(schema, kind), kinds[0]) == WithType(schema, kinds[0]);
      SameProbe(c, schema, kind, kinds[1..], value, depth, Validate(c, WithType(schema, kinds[0]), value, depth + 1, b).budget);
    }
  }

  lemma {:induction false} KeepsEachKind(c: Context, schema: Json, kinds: seq<Json>, value: Json, depth: nat, b: Budget, depth': nat, b': Budget)
    requires Scope(c, schema, value) && Typed(schema) && depth' <= depth <= MAX_DEPTH && Within(b', b)
    requires !ProbeKinds(c, schema, kinds, value, depth, b).budget.hit
    ensures AgreeTally(ProbeKinds(RewriteContext(c), OmissionOnly(schema), RewriteItems(kinds), value, depth', b'),
                       ProbeKinds(c, schema, kinds, value, depth, b))
    decreases MAX_DEPTH + 1 - depth, 0, |kinds|
  {
    if kinds != [] {
      KeepsKind(c, schema, kinds[0], value, depth + 1, b, depth' + 1, b');
      var o := Validate(c, WithType(schema, kinds[0]), value, depth + 1, b);
      var o' := Validate(RewriteContext(c), WithType(OmissionOnly(schema), OmissionOnly(kinds[0])), value, depth' + 1, b');
      KeepsEachKind(c, schema, kinds[1..], value, depth, o.budget, depth', o'.budget);
      ProbeFirstKind(RewriteContext(c), OmissionOnly(schema), OmissionOnly(kinds[0]), RewriteItems(kinds[1..]), value, depth', b');
    }
  }

  /** Kinds are tried one by one on both sides; null kinds only cost the original a probe. */
  lemma {:induction false} KeepsKinds(c: Context, schema: Json, kinds: seq<Json>, value: Json, depth: nat, b: Budget, depth': nat, b': Budget)
    requires Scope(c, schema, value) && Typed(schema) && depth' <= depth <= MAX_DEPTH && Within(b', b)
    requires !ProbeKinds(c, schema, kinds, value, depth, b).budget.hit
    ensures AgreeTally(ProbeKinds(RewriteContext(c), OmissionOnly(schema), DropNull(RewriteItems(kinds)), value, depth', b'),
                       ProbeKinds(c, schema, kinds, value, depth, b))
    decreases MAX_DEPTH + 1 - depth, 0, |kinds|
  {
    if kinds != [] {
      var o := Validate(c, WithType(schema, kinds[0]), value, depth + 1, b);
      DropNullKind(kinds);
      if kinds[0] == Text("null") {
        SkipNull(c, schema, kinds, value, depth, b);
        KeepsKinds(c, schema, kinds[1..], value, depth, o.budget, depth', b');
      } else {
        KeepsKind(c, schema, kinds[0], value, depth + 1, b, depth' + 1, b');
        var o' := Validate(RewriteContext(c), WithType(OmissionOnly(schema), OmissionOnly(kinds[0])), value, depth' + 1, b');
        KeepsKinds(c, schema, kinds[1..], value, depth, o.budget, depth', o'.budget);
        ProbeFirstKind(RewriteContext(c), OmissionOnly(schema), OmissionOnly(kinds[0]), DropNull(RewriteItems(kinds[1..])), value, depth', b');
      }
    }
  }

  /** Probing the kind null costs nodes and matches nothing. */
  lemma {:induction false} SkipNull(c: Context, schema: Json, kinds: seq<Json>, value: Json, depth: nat, b: Budget)
    requires Typed(schema) && !value.Null? && depth <= MAX_DEPTH && kinds != [] && kinds[0] == Text("null")
    ensures ProbeKinds(c, schema, kinds, value, depth, b) ==
            ProbeKinds(c, schema, kinds[1..], value, depth, Validate(c, WithType(schema, kinds[0]), value, depth + 1, b).budget)
  {
    WithTypeReads(schema, kinds[0]);
    NullTypeRejects(c, WithType(schema, kinds[0]), value, depth + 1, b);
  }

  lemma {:induction false} DropNullKind(kinds: seq<Json>)
    requires kinds != []
    ensures var rest := DropNull(RewriteItems(kinds[1..]));
            DropNull(RewriteItems(kinds)) == if kinds[0] == Text("null") then rest else [OmissionOnly(kinds[0])] + rest
  {
    assert RewriteItems(kinds)[1..] == RewriteItems(kinds[1..]);
  }

  lemma {:induction false} ProbeFirstKind(c: Context, schema: Json, first: Json, rest: seq<Json>, value: Json, depth: nat, b: Budget)
    requires depth <= MAX_DEPTH
    ensures var o := Validate(c, WithType(schema, first), value, depth + 1, b);
            var t := ProbeKinds(c, schema, rest, value, depth, o.budget);
            ProbeKinds(c, schema, [first] + rest, value, depth, b) == Tally((if o.verdict == Accept then 1 else 0) + t.matches, t.budget)
  {
    assert ([first] + rest)[1..] == rest;
  }

  /** One kind is left: the rewritten schema checks it directly, the original through a probe. */
  lemma {:induction false} KeepsSingle(c: Context, schema: Json, kinds: seq<Json>, value: Json, depth: nat, b: Budget, depth': nat, b': Budget)
    requires Scope(c, schema, value) && Typed(schema) && MeetsConst(schema, value) && depth' <= depth <= MAX_DEPTH && Within(b', b)
    requires |DropNull(kinds)| == 1 && Get(OmissionOnly(schema), "type") == Some(OmissionOnly(DropNull(kinds)[0]))
    requires !ProbeKinds(c, schema, kinds, value, depth, b).budget.hit
    ensures var t := ProbeKinds(c, schema, kinds, value, depth, b);
            Agree(ValidateType(RewriteContext(c), OmissionOnly(schema), value, depth', b'),
                  Outcome(if t.matches == 1 then Accept else Reject, t.budget))
    decreases MAX_DEPTH + 1 - depth, 0, |kinds|
  {
    var o := Validate(c, WithType(schema, kinds[0]), value, depth + 1, b);
    if kinds[0] == Text("null") {
      SkipNull(c, schema, kinds, value, depth, b);
      KeepsSingle(c, schema, kinds[1..], value, depth, o.budget, depth', b');
    } else {
      KeepsDirect(c, schema, kinds[0], value, depth, b, depth', b');
      RestAreNull(c, schema, kinds[1..], value, depth, o.budget);
    }
  }

  lemma {:induction false} KeepsDirect(c: Context, schema: Json, kind: Json, value: Json, depth: nat, b: Budget, depth': nat, b': Budget)
    requires Scope(c, schema, value) && Typed(schema) && MeetsConst(schema, value) && depth' <= depth <= MAX_DEPTH && Within(b', b)
    requires Get(OmissionOnly(schema), "type") == Some(OmissionOnly(kind))
    requires !Validate(c, WithType(schema, kind), value, depth + 1, b).budget.hit
    ensures Agree(ValidateType(RewriteContext(c), OmissionOnly(schema), value, depth', b'), Validate(c, WithType(schema, kind), value, depth + 1, b))
    decreases MAX_DEPTH + 1 - depth, 0, 0
  {
    SetFieldSame(OmissionOnly(schema).fields, "type", OmissionOnly(kind));
    assert WithType(OmissionOnly(schema), OmissionOnly(kind)) == OmissionOnly(schema);
    KeepsKindCounted(c, schema, kind, value, depth + 1, Budget(b.nodes + 1, b.hit), depth', b');
    RewrittenIsTyped(schema, value);
    CountedIsType(RewriteContext(c), OmissionOnly(schema), value, depth', b');
  }

  lemma {:induction false} RestAreNull(c: Context, schema: Json, kinds: seq<Json>, value: Json, depth: nat, b: Budget)
    requires Typed(schema) && !value.Null? && depth <= MAX_DEPTH && DropNull(kinds) == []
    ensures ProbeKinds(c, schema, kinds, value, depth, b).matches == 0
  {
    NullKindsOf(kinds);
    NullListRejects(c, schema, kinds, value, depth, b);
  }

  // ---------------------------------------------------------------- arrays and objects

  lemma {:induction false} KeepsArray(c: Context, schema: Json, value: Json, depth: nat, b: Budget, depth': nat, b': Budget)
    requires Scope(c, schema, value) && depth' <= depth <= MAX_DEPTH && Within(b', b)
    requires !ValidateArray(c, schema, value, depth, b).budget.hit
    ensures Agree(ValidateArray(RewriteContext(c), OmissionOnly(schema), value, depth', b'), ValidateArray(c, schema, value, depth, b))
    decreases MAX_DEPTH + 1 - depth, 3, 0
  {
    if value.Array? {
      AdmissionKept(schema, [], value.items);
      PlainKeyword(schema, "items");
      if ArrayAdmitted(schema, value.items) && Get(schema, "items").Some? {
        KeywordAt(schema.fields, "items");
        var item := Get(schema, "items").value;
        assert KeywordWellFormed(Field("items", item));
        if item.Object? || item.Array? {
          KeepsItems(c, item, value.items, depth, b, depth', b');
        }
      }
    }
  }

  lemma {:induction false} KeepsItems(c: Context, schema: Json, items: seq<Json>, depth: nat, b: Budget, depth': nat, b': Budget)
    requires WellFormed(c.root) && WellFormed(schema) && ItemsNullFree(items) && depth' <= depth <= MAX_DEPTH && Within(b', b)
    requires !ValidateItems(c, schema, items, depth, b).budget.hit
    ensures Agree(ValidateItems(RewriteContext(c), OmissionOnly(schema), items, depth', b'), ValidateItems(c, schema, items, depth, b))
    decreases MAX_DEPTH + 1 - depth, 0, |items|
  {
    if items != [] {
      Keeps(c, schema, items[0], depth + 1, b, depth' + 1, b');
      var o := Validate(c, schema, items[0], depth + 1, b);
      var o' := Validate(RewriteContext(c), OmissionOnly(schema), items[0], depth' + 1, b');
      if o.verdict == Accept {
        KeepsItems(c, schema, items[1..], depth, o.budget, depth', o'.budget);
      }
    }
  }

  lemma {:induction false} KeepsObject(c: Context, schema: Json, value: Json, depth: nat, b: Budget, depth': nat, b': Budget)
    requires Scope(c, schema, value) && depth' <= depth <= MAX_DEPTH && Within(b', b)
    requires !ValidateObject(c, schema, value, depth, b).budget.hit
    ensures Agree(ValidateObject(RewriteContext(c), OmissionOnly(schema), value, depth', b'), ValidateObject(c, schema, value, depth, b))
    decreases MAX_DEPTH + 1 - depth, 3, 0
  {
    if value.Object? {
      AdmissionKept(schema, value.fields, []);
      if ObjectAdmitted(schema, value.fields) {
        KeepsFields(c, schema, value.fields, depth, b, depth', b');
      }
    }
  }

  lemma {:induction false} KeepsFields(c: Context, schema: Json, fields: seq<Field>, depth: nat, b: Budget, depth': nat, b': Budget)
    requires WellFormed(c.root) && WellFormed(schema) && FieldsNullFree(fields) && depth' <= depth <= MAX_DEPTH && Within(b', b)
    requires !ValidateFields(c, schema, fields, depth, b).budget.hit
    ensures Agree(ValidateFields(RewriteContext(c), OmissionOnly(schema), fields, depth', b'), ValidateFields(c, schema, fields, depth, b))
    decreases MAX_DEPTH + 1 - depth, 0, |fields| + 1
  {
    if fields != [] {
      PlanKept(c, schema, fields[0].name);
      var plan := PlanField(c, schema, fields[0].name);
      if plan.Check? {
        assert FieldNullFree(fields[0]);
        var o := ValidateAll(c, plan.schemas, fields[0].value, depth, b);
        KeepsAll(c, plan.schemas, fields[0].value, depth, b, depth', b');
        var plan' := PlanField(RewriteContext(c), OmissionOnly(schema), fields[0].name);
        SameAll(RewriteContext(c), plan'.schemas, plan.schemas, fields[0].value, depth', b');
        var o' := ValidateAll(RewriteContext(c), plan'.schemas, fields[0].value, depth', b');
        if o.verdict == Accept {
          KeepsFields(c, schema, fields[1..], depth, o.budget, depth', o'.budget);
        }
      }
    }
  }

  /** No keyword can be read off a list, so any two lists accept everything alike. */
  lemma {:induction false} ListsAgree(c: Context, a: Json, b: Json, value: Json, depth: nat, budget: Budget)
    requires a.Array? && b.Array?
    ensures Validate(c, a, value, depth, budget) == Validate(c, b, value, depth, budget)
  {
    if depth <= MAX_DEPTH {
      var counted := Budget(budget.nodes + 1, budget.hit);
      ListAccepts(c, a, value, depth, counted);
      ListAccepts(c, b, value, depth, counted);
    }
  }

  lemma {:induction false} ListAccepts(c: Context, a: Json, value: Json, depth: nat, b: Budget)
    requires a.Array? && depth <= MAX_DEPTH
    ensures ValidateCounted(c, a, value, depth, b) == Outcome(Accept, b)
  {
    assert ValidateType(c, a, value, depth, b) == Outcome(Accept, b);
  }

  lemma {:induction false} SameAll(c: Context, rewritten: seq<Json>, original: seq<Json>, value: Json, depth: nat, b: Budget)
    requires SameSchemas(rewritten, original) && depth <= MAX_DEPTH
    ensures ValidateAll(c, rewritten, value, depth, b) == ValidateAll(c, RewriteItems(original), value, depth, b)
    decreases |original|
  {
    if original != [] {
      if rewritten[0] != OmissionOnly(original[0]) {
        ListsAgree(c, rewritten[0], OmissionOnly(original[0]), value, depth + 1, b);
      }
      var o := Validate(c, rewritten[0], value, depth + 1, b);
      assert RewriteItems(original)[1..] == RewriteItems(original[1..]);
      SameAll(c, rewritten[1..], original[1..], value, depth, o.budget);
    }
  }

  lemma {:induction false} KeepsAll(c: Context, schemas: seq<Json>, value: Json, depth: nat, b: Budget, depth': nat, b': Budget)
    requires WellFormed(c.root) && EachWellFormed(schemas) && NullFree(value) && depth' <= depth <= MAX_DEPTH && Within(b', b)
    requires !ValidateAll(c, schemas, value, depth, b).budget.hit
    ensures Agree(ValidateAll(RewriteContext(c), RewriteItems(schemas), value, depth', b'), ValidateAll(c, schemas, value, depth, b))
    decreases MAX_DEPTH + 1 - depth, 0, 0, |schemas|
  {
    if schemas != [] {
      Keeps(c, schemas[0], value, depth + 1, b, depth' + 1, b');
      var o := Validate(c, schemas[0], value, depth + 1, b);
      var o' := Validate(RewriteContext(c), OmissionOnly(schemas[0]), value, depth' + 1, b');
      assert RewriteItems(schemas)[1..] == RewriteItems(schemas[1..]);
      if o.verdict == Accept {
        KeepsAll(c, schemas[1..], value, depth, o.budget, depth', o'.budget);
      }
    }
  }

  // ---------------------------------------------------------------- the result

  /**
    For every root schema in scope and every null-free value: if validating
    against the original hits no bound, neither does validating against the
    rewritten schema, and one accepts exactly when the other does.
    */
  lemma {:induction false} RewriteKeepsMeaning(root: Json, match_: (string, string) -> PatternResult, value: Json)
    requires WellFormed(root) && NullFree(value)
    requires !Validate(Context(root, match_), root, value, 0, Budget(0, false)).budget.hit
    ensures var original := Validate(Context(root, match_), root, value, 0, Budget(0, false));
            var rewritten := Validate(Context(OmissionOnly(root), match_), OmissionOnly(root), value, 0, Budget(0, false));
            && !rewritten.budget.hit && rewritten.budget.nodes <= original.budget.nodes
            && (rewritten.verdict == Accept <==> original.verdict == Accept)
  {
    Keeps(Context(root, match_), root, value, 0, Budget(0, false), 0, Budget(0, false));
  }

  /**
    A list that stands for a schema in a table, under the name `type`, and holds null and one other kind that is
    no schema: the original accepts every value under that name, the rewritten schema raises on every value.
    */
  lemma {:induction false} StaysListIsNeeded(c: Context, kinds: seq<Json>, value: Json, depth: nat, b: Budget)
    requires Text("null") in kinds && |DropNull(kinds)| == 1 && !DropNull(kinds)[0].Array? && !DropNull(kinds)[0].Object?
    requires depth <= MAX_DEPTH && b.nodes < MAX_NODES
    ensures !StaysList(Field("type", Array(kinds)))
    ensures Validate(c, Array(kinds), value, depth, b).verdict == Accept
    ensures Validate(c, RewriteField(Field("type", Array(kinds))).value, value, depth, b).verdict == Crash
  {
    CollapsedList(kinds);
    assert ValidateCounted(c, DropNull(kinds)[0], value, depth, Budget(b.nodes + 1, b.hit)).verdict == Crash;
    ListAccepts(c, Array(kinds), value, depth, Budget(b.nodes + 1, b.hit));
  }

  lemma {:induction false} CollapsedList(kinds: seq<Json>)
    requires Text("null") in kinds && |DropNull(kinds)| == 1 && !DropNull(kinds)[0].Array? && !DropNull(kinds)[0].Object?
    ensures RewriteField(Field("type", Array(kinds))).value == DropNull(kinds)[0]
  {
    RewrittenKinds(kinds);
    var kept := RewriteField(Field("type", Array(kinds))).value;
    assert kept == Finish("type", OmissionOnly(Array(kinds))) == DropNull(RewriteItems(kinds))[0];
    assert kept == OmissionOnly(DropNull(kinds)[0]);
  }

  // A null alternative that is also a reference.
  const FLAG: Json := Object([Field("type", Text("boolean"))])
  const NULL_REFERENCE: Json := Object([Field("type", Text("null")), Field("$ref", Text("#/$defs/Flag"))])
  const ROOT: Json := Object([Field("$defs", Object([Field("Flag", FLAG)])), Field("anyOf", Array([NULL_REFERENCE]))])

  lemma {:induction false} ReadFlag()
    ensures KindOf(Get(FLAG, "type")) == BoolKind
    ensures !IsReference(FLAG) && Alternatives(FLAG).None? && Get(FLAG, "const").None?
  {
    assert "oneOf"[0] == 'o' && "type"[0] == 't' && "const"[0] == 'c' && "anyOf"[0] == 'a' && "$ref"[0] == '$';
    LookupTwo(FLAG.fields[0], FLAG.fields[0], "type");
    LookupTwo(FLAG.fields[0], FLAG.fields[0], "$ref");
    LookupTwo(FLAG.fields[0], FLAG.fields[0], "oneOf");
    LookupTwo(FLAG.fields[0], FLAG.fields[0], "anyOf");
    LookupTwo(FLAG.fields[0], FLAG.fields[0], "const");
  }

  lemma {:induction false} ReadNullReference()
    ensures IsReference(NULL_REFERENCE) && Get(NULL_REFERENCE, "$ref").value.text == "#/$defs/Flag"
    ensures Get(NULL_REFERENCE, "type") == Some(Text("null"))
  {
    assert "type"[0] == 't' && "$ref"[0] == '$';
    LookupTwo(NULL_REFERENCE.fields[0], NULL_REFERENCE.fields[1], "$ref");
    LookupTwo(NULL_REFERENCE.fields[0], NULL_REFERENCE.fields[1], "type");
  }

  lemma {:induction false} ReadRoot()
    ensures !IsReference(ROOT) && Get(ROOT, "oneOf").None? && Alternatives(ROOT) == Some([NULL_REFERENCE])
    ensures Get(ROOT, "$defs") == Some(Object([Field("Flag", FLAG)]))
  {
    assert |"$defs"| == 5 && |"$ref"| == 4 && "$defs"[0] == '$' && "anyOf"[0] == 'a' && "oneOf"[0] == 'o';
    LookupTwo(ROOT.fields[0], ROOT.fields[1], "$ref");
    LookupTwo(ROOT.fields[0], ROOT.fields[1], "oneOf");
    LookupTwo(ROOT.fields[0], ROOT.fields[1], "anyOf");
    LookupTwo(ROOT.fields[0], ROOT.fields[1], "$defs");
  }

  lemma {:induction false} ResolveFlag()
    ensures Resolve(ROOT, "#/$defs/Flag") == Some(FLAG)
  {
    ReadRoot();
    assert DefinitionName("#/$defs/Flag") == "Flag";
    LookupTwo(Field("Flag", FLAG), Field("Flag", FLAG), "Flag");
  }

  /** There the original accepts `true` while the rewritten schema has no alternative left to accept it. */
  lemma {:induction false} BareNullIsNeeded(match_: (string, string) -> PatternResult)
    ensures !BareNull(NULL_REFERENCE)
    ensures Validate(Context(ROOT, match_), ROOT, Bool(true), 0, Budget(0, false)) == Outcome(Accept, Budget(3, false))
    ensures Validate(Context(OmissionOnly(ROOT), match_), OmissionOnly(ROOT), Bool(true), 0, Budget(0, false)).verdict == Reject
  {
    ReadNullReference();
    GetRewritten(NULL_REFERENCE, "type");
    assert IsNullSchema(OmissionOnly(NULL_REFERENCE));
    OriginalAccepts(Context(ROOT, match_));
    RewrittenRejects(Context(OmissionOnly(ROOT), match_));
  }

  lemma {:induction false} OriginalAccepts(c: Context)
    requires c.root == ROOT
    ensures Validate(c, ROOT, Bool(true), 0, Budget(0, false)) == Outcome(Accept, Budget(3, false))
  {
    ReadFlag();
    ReadNullReference();
    ReadRoot();
    ResolveFlag();
    assert ValidateType(c, FLAG, Bool(true), 2, Budget(3, false)) == Outcome(Accept, Budget(3, false));
    assert Validate(c, FLAG, Bool(true), 2, Budget(2, false)) == Outcome(Accept, Budget(3, false));
    assert Validate(c, NULL_REFERENCE, Bool(true), 1, Budget(1, false)) == Outcome(Accept, Budget(3, false));
    assert [NULL_REFERENCE][1..] == [];
    assert Probe(c, [NULL_REFERENCE], Bool(true), 0, Budget(1, false)) == Tally(1, Budget(3, false));
    assert ValidateCounted(c, ROOT, Bool(true), 0, Budget(1, false)) == Outcome(Accept, Budget(3, false));
  }

  lemma {:induction false} RewrittenRejects(c: Context)
    ensures Validate(c, OmissionOnly(ROOT), Bool(true), 0, Budget(0, false)).verdict == Reject
  {
    ReadNullReference();
    ReadRoot();
    GetRewritten(NULL_REFERENCE, "type");
    GetRewritten(ROOT, "anyOf");
    GetRewritten(ROOT, "oneOf");
    ReferenceRewritten(ROOT);
    assert IsNullSchema(OmissionOnly(NULL_REFERENCE));
    assert RewriteItems([NULL_REFERENCE]) == [OmissionOnly(NULL_REFERENCE)] by { assert [NULL_REFERENCE][1..] == []; }
    assert DropNullSchemas([OmissionOnly(NULL_REFERENCE)]) == [] by { assert [OmissionOnly(NULL_REFERENCE)][1..] == []; }
    assert Alternatives(OmissionOnly(ROOT)) == Some([]);
    assert ValidateCounted(c, OmissionOnly(ROOT), Bool(true), 0, Budget(1, false)).verdict == Reject;
  }
}

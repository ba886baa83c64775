/**
  The emitted `coerce`: it moves integers between `number` and `bigint` as a
  schema asks, and never changes which number, text or shape a value is.
  */
module SchemaCoercion {
  import opened Wrappers
  import opened Json
  import V = SchemaValidation

  datatype Coerced =
    | Returned(value: Json)
    | Invalid  // a ValidationError
    | Crashed  // any other exception

  datatype Step = Step(result: Coerced, nodes: nat)

  /** Children coerced in order, or the failure that stopped the walk. */
  datatype Walk<T> = Walked(values: seq<T>, nodes: nat) | Stopped(failure: Failure, nodes: nat)
  type Failure = f: Coerced | !f.Returned? witness Invalid

  function Rebuild<T>(w: Walk<T>, build: seq<T> -> Json): (r: Step) {
    match w
    case Walked(values, nodes) => Step(Returned(build(values)), nodes)
    case Stopped(failure, nodes) => Step(failure, nodes)
  }

  const MAX_DEPTH: nat := V.MAX_DEPTH
  const MAX_NODES: nat := V.MAX_NODES

  // ---------------------------------------------------------------- choosing schemas

  /** `definitions[name] ?? {}`; reading a property of a missing or null table throws. */
  function Definition(root: Json, reference: string): (r: Option<Json>) {
    match Get(root, "$defs")
    case None => None
    case Some(Null) => None
    case Some(table) =>
      match Get(table, V.DefinitionName(reference))
      case None => Some(Object([]))
      case Some(Null) => Some(Object([]))
      case Some(target) => Some(target)
  }

  datatype Choice = Unmatched | Chosen(schema: Json) | PatternFailure

  function FirstPattern(c: V.Context, patterns: seq<Field>, name: string): (r: Choice) {
    if patterns == [] then Unmatched else
      match c.match_(patterns[0].name, name)
      case Matches => Chosen(patterns[0].value)
      case UnsupportedPattern => PatternFailure
      case Differs => FirstPattern(c, patterns[1..], name)
  }

  /** The schema for one field: property, else first matching pattern, else additional properties. */
  function ChooseField(c: V.Context, schema: Json, name: string): (r: Choice) {
    match Lookup(V.FieldsOf(Get(schema, "properties")), name)
    case Some(Null) => ChoosePattern(c, schema, name)
    case None => ChoosePattern(c, schema, name)
    case Some(child) => Chosen(child)
  }

  function ChoosePattern(c: V.Context, schema: Json, name: string): (r: Choice) {
    match FirstPattern(c, V.FieldsOf(Get(schema, "patternProperties")), name)
    case PatternFailure => PatternFailure
    case Chosen(Null) => ChooseAdditional(schema)
    case Unmatched => ChooseAdditional(schema)
    case chosen => chosen
  }

  function ChooseAdditional(schema: Json): (r: Choice) {
    match Get(schema, "additionalProperties")
    case Some(Object(fields)) => Chosen(Object(fields))
    case Some(Array(items)) => Chosen(Array(items))
    case _ => Unmatched
  }

  /** Integers move to the representation the format asks for, when that is exact. */
  function CoerceInteger(schema: Json, value: Json): (r: Json) {
    if V.IsWide(schema) && value.Number? && V.IsSafeInteger(value.number) then BigInt(value.number.Floor)
    else if !V.IsWide(schema) && value.BigInt? && -V.MAX_SAFE <= value.integer <= V.MAX_SAFE then Number(value.integer as real)
    else value
  }

  predicate Moves(schema: Json, value: Json) {
    Get(schema, "type") == Some(Text("integer")) && CoerceInteger(schema, value) != value
  }

  // ---------------------------------------------------------------- the coercion

  function Coerce(c: V.Context, schema: Json, value: Json, depth: nat, nodes: nat): (r: Step)
    decreases MAX_DEPTH + 1 - depth, 3
  {
    if depth > MAX_DEPTH then Step(Invalid, nodes)
    else if nodes + 1 > MAX_NODES then Step(Invalid, nodes + 1)
    else CoerceCounted(c, schema, value, depth, nodes + 1)
  }

  function CoerceCounted(c: V.Context, schema: Json, value: Json, depth: nat, nodes: nat): (r: Step)
    requires depth <= MAX_DEPTH
    decreases MAX_DEPTH + 1 - depth, 2
  {
    if !schema.Object? && !schema.Array? then Step(Crashed, nodes)
    else if V.IsReference(schema) then
      (match Definition(c.root, Get(schema, "$ref").value.text)
       case None => Step(Crashed, nodes)
       case Some(target) => Coerce(c, target, value, depth + 1, nodes))
    else
      match V.Alternatives(schema)
      case Some(alternatives) => CoerceFirst(c, alternatives, value, depth, nodes)
      case None =>
        match Get(schema, "type")
        case Some(Array(kinds)) => CoerceKinds(c, schema, kinds, value, depth, nodes)
        case _ => CoerceTyped(c, schema, value, depth, nodes)
  }

  /** The first alternative whose coerced value it then accepts; otherwise the value itself. */
  function CoerceFirst(c: V.Context, alternatives: seq<Json>, value: Json, depth: nat, nodes: nat): (r: Step)
    requires depth <= MAX_DEPTH
    decreases MAX_DEPTH + 1 - depth, 0, |alternatives|
  {
    if alternatives == [] then Step(Returned(value), nodes) else
      var s := Coerce(c, alternatives[0], value, depth + 1, nodes);
      match Settle(c, alternatives[0], s.result, depth)
      case Invalid => CoerceFirst(c, alternatives[1..], value, depth, s.nodes)
      case settled => Step(settled, s.nodes)
  }

  function CoerceKinds(c: V.Context, schema: Json, kinds: seq<Json>, value: Json, depth: nat, nodes: nat): (r: Step)
    requires depth <= MAX_DEPTH
    decreases MAX_DEPTH + 1 - depth, 0, |kinds|
  {
    if kinds == [] then Step(Returned(value), nodes) else
      var candidate := V.WithType(schema, kinds[0]);
      var s := Coerce(c, candidate, value, depth + 1, nodes);
      match Settle(c, candidate, s.result, depth)
      case Invalid => CoerceKinds(c, schema, kinds[1..], value, depth, s.nodes)
      case settled => Step(settled, s.nodes)
  }

  /** A probe's coerced value is kept only if the candidate accepts it, validated with a budget of its own. */
  function Settle(c: V.Context, candidate: Json, result: Coerced, depth: nat): (r: Coerced) {
    match result
    case Returned(normalized) =>
      (match V.Validate(c, candidate, normalized, depth + 1, V.Budget(0, false)).verdict
       case Accept => result
       case Reject => Invalid
       case Crash => Crashed)
    case _ => result
  }

  function CoerceTyped(c: V.Context, schema: Json, value: Json, depth: nat, nodes: nat): (r: Step)
    requires depth <= MAX_DEPTH
    decreases MAX_DEPTH + 1 - depth, 1
  {
    var declared := Get(schema, "type");
    if Moves(schema, value) then Step(Returned(CoerceInteger(schema, value)), nodes)
    else if declared == Some(Text("array")) && value.Array? then
      match Get(schema, "items")
      case None => Step(Returned(value), nodes)
      case Some(item) =>
        Rebuild(CoerceItems(c, item, value.items, depth, nodes), values => Array(values))
    else if (declared == Some(Text("object")) || Get(schema, "properties").Some?) && value.Object? then
      Rebuild(CoerceFields(c, schema, value.fields, depth, nodes), values => Object(values))
    else Step(Returned(value), nodes)
  }

  function CoerceItems(c: V.Context, schema: Json, items: seq<Json>, depth: nat, nodes: nat): (r: Walk<Json>)
    requires depth <= MAX_DEPTH
    decreases MAX_DEPTH + 1 - depth, 0, |items|
  {
    if items == [] then Walked([], nodes) else
      var s := Coerce(c, schema, items[0], depth + 1, nodes);
      match s.result
      case Returned(first) =>
        var rest := CoerceItems(c, schema, items[1..], depth, s.nodes);
        if rest.Stopped? then rest else Walked([first] + rest.values, rest.nodes)
      case failure => Stopped(failure, s.nodes)
  }

  function CoerceFields(c: V.Context, schema: Json, fields: seq<Field>, depth: nat, nodes: nat): (r: Walk<Field>)
    requires depth <= MAX_DEPTH
    decreases MAX_DEPTH + 1 - depth, 0, |fields| + 1
  {
    if fields == [] then Walked([], nodes) else
      var s := CoerceField(c, schema, fields[0], depth, nodes);
      match s.result
      case Returned(child) =>
        var rest := CoerceFields(c, schema, fields[1..], depth, s.nodes);
        if rest.Stopped? then rest else Walked([Field(fields[0].name, child)] + rest.values, rest.nodes)
      case failure => Stopped(failure, s.nodes)
  }

  function CoerceField(c: V.Context, schema: Json, field: Field, depth: nat, nodes: nat): (r: Step)
    requires depth <= MAX_DEPTH
    decreases MAX_DEPTH + 1 - depth, 0, 0
  {
    match ChooseField(c, schema, field.name)
    case PatternFailure => Step(Invalid, nodes)
    case Unmatched => Step(Returned(field.value), nodes)
    case Chosen(child) => Coerce(c, child, field.value, depth + 1, nodes)
  }

  // ---------------------------------------------------------------- numeric meaning is kept

  /** A value with integers of both representations identified. */
  function Meaning(j: Json): (r: Json)
    decreases j, 0
  {
    match j
    case BigInt(i) => Number(i as real)
    case Array(items) => Array(ItemsMeaning(items))
    case Object(fields) => Object(FieldsMeaning(fields))
    case _ => j
  }

  function ItemsMeaning(items: seq<Json>): (r: seq<Json>)
    decreases items, 0
  {
    if items == [] then [] else [Meaning(items[0])] + ItemsMeaning(items[1..])
  }

  function FieldMeaning(field: Field): (r: Field)
    decreases field, 0
  {
    Field(field.name, Meaning(field.value))
  }

  function FieldsMeaning(fields: seq<Field>): (r: seq<Field>)
    decreases fields, 0
  {
    if fields == [] then [] else [FieldMeaning(fields[0])] + FieldsMeaning(fields[1..])
  }

  predicate SameMeaning(s: Step, value: Json) {
    s.result.Returned? ==> Meaning(s.result.value) == Meaning(value)
  }

  /** Whatever the schema, unions included: a returned value means what the input meant. */
  lemma {:induction false} CoerceKeepsMeaning(c: V.Context, schema: Json, value: Json, depth: nat, nodes: nat)
    ensures SameMeaning(Coerce(c, schema, value, depth, nodes), value)
    decreases MAX_DEPTH + 1 - depth, 3
  {
    if depth <= MAX_DEPTH && nodes + 1 <= MAX_NODES {
      CountedKeepsMeaning(c, schema, value, depth, nodes + 1);
    }
  }

  lemma {:induction false} CountedKeepsMeaning(c: V.Context, schema: Json, value: Json, depth: nat, nodes: nat)
    requires depth <= MAX_DEPTH
    ensures SameMeaning(CoerceCounted(c, schema, value, depth, nodes), value)
    decreases MAX_DEPTH + 1 - depth, 2
  {
    if V.IsReference(schema) {
      var target := Definition(c.root, Get(schema, "$ref").value.text);
      if target.Some? { CoerceKeepsMeaning(c, target.value, value, depth + 1, nodes); }
    } else if V.Alternatives(schema).Some? {
      FirstKeepsMeaning(c, V.Alternatives(schema).value, value, depth, nodes);
    } else if Get(schema, "type").Some? && Get(schema, "type").value.Array? {
      KindsKeepMeaning(c, schema, Get(schema, "type").value.items, value, depth, nodes);
    } else {
      TypedKeepsMeaning(c, schema, value, depth, nodes);
    }
  }

  lemma {:induction false} FirstKeepsMeaning(c: V.Context, alternatives: seq<Json>, value: Json, depth: nat, nodes: nat)
    requires depth <= MAX_DEPTH
    ensures SameMeaning(CoerceFirst(c, alternatives, value, depth, nodes), value)
    decreases MAX_DEPTH + 1 - depth, 0, |alternatives|
  {
    if alternatives != [] {
      CoerceKeepsMeaning(c, alternatives[0], value, depth + 1, nodes);
      FirstKeepsMeaning(c, alternatives[1..], value, depth, Coerce(c, alternatives[0], value, depth + 1, nodes).nodes);
    }
  }

  lemma {:induction false} KindsKeepMeaning(c: V.Context, schema: Json, kinds: seq<Json>, value: Json, depth: nat, nodes: nat)
    requires depth <= MAX_DEPTH
    ensures SameMeaning(CoerceKinds(c, schema, kinds, value, depth, nodes), value)
    decreases MAX_DEPTH + 1 - depth, 0, |kinds|
  {
    if kinds != [] {
      var candidate := V.WithType(schema, kinds[0]);
      CoerceKeepsMeaning(c, candidate, value, depth + 1, nodes);
      KindsKeepMeaning(c, schema, kinds[1..], value, depth, Coerce(c, candidate, value, depth + 1, nodes).nodes);
    }
  }

  lemma {:induction false} TypedKeepsMeaning(c: V.Context, schema: Json, value: Json, depth: nat, nodes: nat)
    requires depth <= MAX_DEPTH
    ensures SameMeaning(CoerceTyped(c, schema, value, depth, nodes), value)
    decreases MAX_DEPTH + 1 - depth, 1
  {
    if value.Array? && Get(schema, "items").Some? {
      ItemsKeepMeaning(c, Get(schema, "items").value, value.items, depth, nodes);
    }
    if value.Object? {
      FieldsKeepMeaning(c, schema, value.fields, depth, nodes);
    }
  }

  lemma {:induction false} ItemsKeepMeaning(c: V.Context, schema: Json, items: seq<Json>, depth: nat, nodes: nat)
    requires depth <= MAX_DEPTH
    ensures var s := CoerceItems(c, schema, items, depth, nodes);
            s.Walked? ==> ItemsMeaning(s.values) == ItemsMeaning(items)
    decreases MAX_DEPTH + 1 - depth, 0, |items|
  {
    if items != [] {
      CoerceKeepsMeaning(c, schema, items[0], depth + 1, nodes);
      var s := Coerce(c, schema, items[0], depth + 1, nodes);
      ItemsKeepMeaning(c, schema, items[1..], depth, s.nodes);
      var rest := CoerceItems(c, schema, items[1..], depth, s.nodes);
      if s.result.Returned? && rest.Walked? {
        assert ([s.result.value] + rest.values)[1..] == rest.values;
      }
    }
  }

  lemma {:induction false} FieldsKeepMeaning(c: V.Context, schema: Json, fields: seq<Field>, depth: nat, nodes: nat)
    requires depth <= MAX_DEPTH
    ensures var s := CoerceFields(c, schema, fields, depth, nodes);
            s.Walked? ==> FieldsMeaning(s.values) == FieldsMeaning(fields)
    decreases MAX_DEPTH + 1 - depth, 0, |fields| + 1
  {
    if fields != [] {
      var s := CoerceField(c, schema, fields[0], depth, nodes);
      var choice := ChooseField(c, schema, fields[0].name);
      if choice.Chosen? { CoerceKeepsMeaning(c, choice.schema, fields[0].value, depth + 1, nodes); }
      FieldsKeepMeaning(c, schema, fields[1..], depth, s.nodes);
      var rest := CoerceFields(c, schema, fields[1..], depth, s.nodes);
      if s.result.Returned? && rest.Walked? {
        assert ([Field(fields[0].name, s.result.value)] + rest.values)[1..] == rest.values;
        assert FieldMeaning(Field(fields[0].name, s.result.value)) == FieldMeaning(fields[0]);
      }
    }
  }

  // ---------------------------------------------------------------- idempotence without unions

  /** No union in any schema position. */
  predicate UnionFree(j: Json)
    decreases j, 0
  {
    j.Object? ==> V.Alternatives(j).None? && KeywordsUnionFree(j.fields)
  }

  predicate KeywordsUnionFree(fields: seq<Field>)
    decreases fields, 0
  {
    fields == [] || (KeywordUnionFree(fields[0]) && KeywordsUnionFree(fields[1..]))
  }

  predicate KeywordUnionFree(field: Field)
    decreases field, 0
  {
    if field.name == "type" then !field.value.Array?
    else if field.name == "properties" || field.name == "patternProperties" || field.name == "$defs" then
      (field.value.Object? ==> TableUnionFree(field.value.fields))
    else if field.name == "items" || field.name == "additionalProperties" then UnionFree(field.value)
    else true
  }

  predicate TableUnionFree(fields: seq<Field>)
    decreases fields, 0
  {
    fields == [] || (EntryUnionFree(fields[0]) && TableUnionFree(fields[1..]))
  }

  predicate EntryUnionFree(field: Field)
    decreases field, 0
  {
    UnionFree(field.value)
  }

  /** No union in what references lead to. */
  predicate DefinitionsUnionFree(root: Json) { TableUnionFree(V.FieldsOf(Get(root, "$defs"))) }

  lemma {:induction false} KeywordUnionFreeAt(fields: seq<Field>, name: string)
    requires KeywordsUnionFree(fields) && Lookup(fields, name).Some?
    ensures KeywordUnionFree(Field(name, Lookup(fields, name).value))
  {
    if fields[0].name != name { KeywordUnionFreeAt(fields[1..], name); }
  }

  lemma {:induction false} TableUnionFreeAt(fields: seq<Field>, name: string)
    requires TableUnionFree(fields) && Lookup(fields, name).Some?
    ensures UnionFree(Lookup(fields, name).value)
  {
    assert EntryUnionFree(fields[0]);
    if fields[0].name != name { TableUnionFreeAt(fields[1..], name); }
  }

  lemma {:induction false} TableUnionFreeOf(schema: Json, name: string)
    requires UnionFree(schema) && V.IsTable(name)
    ensures TableUnionFree(V.FieldsOf(Get(schema, name)))
  {
    if Get(schema, name).Some? {
      KeywordUnionFreeAt(schema.fields, name);
      assert KeywordUnionFree(Field(name, Get(schema, name).value));
    }
  }

  lemma {:induction false} DefinitionUnionFree(root: Json, reference: string)
    requires DefinitionsUnionFree(root) && Definition(root, reference).Some?
    ensures UnionFree(Definition(root, reference).value)
  {
    var name := V.DefinitionName(reference);
    var table := Get(root, "$defs").value;
    if Get(table, name).Some? {
      TableUnionFreeAt(V.FieldsOf(Get(root, "$defs")), name);
    }
  }

  lemma {:induction false} PatternUnionFree(c: V.Context, patterns: seq<Field>, name: string)
    requires TableUnionFree(patterns) && FirstPattern(c, patterns, name).Chosen?
    ensures UnionFree(FirstPattern(c, patterns, name).schema)
  {
    assert EntryUnionFree(patterns[0]);
    if c.match_(patterns[0].name, name) == V.Differs { PatternUnionFree(c, patterns[1..], name); }
  }

  lemma {:induction false} ChosenUnionFree(c: V.Context, schema: Json, name: string)
    requires UnionFree(schema) && ChooseField(c, schema, name).Chosen?
    ensures UnionFree(ChooseField(c, schema, name).schema)
  {
    TableUnionFreeOf(schema, "properties");
    TableUnionFreeOf(schema, "patternProperties");
    var properties, patterns := V.FieldsOf(Get(schema, "properties")), V.FieldsOf(Get(schema, "patternProperties"));
    if Lookup(properties, name).Some? { TableUnionFreeAt(properties, name); }
    if FirstPattern(c, patterns, name).Chosen? { PatternUnionFree(c, patterns, name); }
    if Get(schema, "additionalProperties").Some? {
      KeywordUnionFreeAt(schema.fields, "additionalProperties");
      assert KeywordUnionFree(Field("additionalProperties", Get(schema, "additionalProperties").value));
    }
  }

  /** Coercing a coerced value again returns it unchanged and counts the same nodes. */
  predicate Settled(again: Step, first: Step) {
    first.result.Returned? ==> again == first
  }

  function ResultOr(s: Step, value: Json): (r: Json) {
    if s.result.Returned? then s.result.value else value
  }

  lemma {:induction false} CoerceIsIdempotent(c: V.Context, schema: Json, value: Json, depth: nat, nodes: nat)
    requires DefinitionsUnionFree(c.root) && UnionFree(schema)
    ensures var s := Coerce(c, schema, value, depth, nodes);
            Settled(Coerce(c, schema, ResultOr(s, value), depth, nodes), s)
    decreases MAX_DEPTH + 1 - depth, 3
  {
    if depth <= MAX_DEPTH && nodes + 1 <= MAX_NODES {
      CountedIsIdempotent(c, schema, value, depth, nodes + 1);
    }
  }

  lemma {:induction false} CountedIsIdempotent(c: V.Context, schema: Json, value: Json, depth: nat, nodes: nat)
    requires DefinitionsUnionFree(c.root) && UnionFree(schema) && depth <= MAX_DEPTH
    ensures var s := CoerceCounted(c, schema, value, depth, nodes);
            Settled(CoerceCounted(c, schema, ResultOr(s, value), depth, nodes), s)
    decreases MAX_DEPTH + 1 - depth, 2
  {
    if schema.Object? || schema.Array? {
      if V.IsReference(schema) {
        var reference := Get(schema, "$ref").value.text;
        if Definition(c.root, reference).Some? {
          DefinitionUnionFree(c.root, reference);
          CoerceIsIdempotent(c, Definition(c.root, reference).value, value, depth + 1, nodes);
        }
      } else {
        TypeIsNoUnion(schema);
        CountedIsTyped(c, schema, value, depth, nodes);
        var s := CoerceTyped(c, schema, value, depth, nodes);
        CountedIsTyped(c, schema, ResultOr(s, value), depth, nodes);
        TypedIsIdempotent(c, schema, value, depth, nodes);
      }
    }
  }

  lemma {:induction false} TypeIsNoUnion(schema: Json)
    requires UnionFree(schema)
    ensures V.Alternatives(schema).None? && (Get(schema, "type").Some? ==> !Get(schema, "type").value.Array?)
  {
    if Get(schema, "type").Some? {
      KeywordUnionFreeAt(schema.fields, "type");
      assert KeywordUnionFree(Field("type", Get(schema, "type").value));
    }
  }

  lemma {:induction false} CountedIsTyped(c: V.Context, schema: Json, value: Json, depth: nat, nodes: nat)
    requires depth <= MAX_DEPTH && (schema.Object? || schema.Array?) && !V.IsReference(schema)
    requires V.Alternatives(schema).None? && (Get(schema, "type").Some? ==> !Get(schema, "type").value.Array?)
    ensures CoerceCounted(c, schema, value, depth, nodes) == CoerceTyped(c, schema, value, depth, nodes)
  {
  }

  lemma {:induction false} TypedIsIdempotent(c: V.Context, schema: Json, value: Json, depth: nat, nodes: nat)
    requires DefinitionsUnionFree(c.root) && UnionFree(schema) && depth <= MAX_DEPTH
    ensures var s := CoerceTyped(c, schema, value, depth, nodes);
            Settled(CoerceTyped(c, schema, ResultOr(s, value), depth, nodes), s)
    decreases MAX_DEPTH + 1 - depth, 1
  {
    if Moves(schema, value) {
      assert !Moves(schema, CoerceInteger(schema, value));
    } else if value.Array? && Get(schema, "items").Some? {
      KeywordUnionFreeAt(schema.fields, "items");
      assert KeywordUnionFree(Field("items", Get(schema, "items").value));
      ItemsAreIdempotent(c, Get(schema, "items").value, value.items, depth, nodes);
    } else if value.Object? {
      FieldsAreIdempotent(c, schema, value.fields, depth, nodes);
    }
  }

  lemma {:induction false} ItemsAreIdempotent(c: V.Context, schema: Json, items: seq<Json>, depth: nat, nodes: nat)
    requires DefinitionsUnionFree(c.root) && UnionFree(schema) && depth <= MAX_DEPTH
    ensures var s := CoerceItems(c, schema, items, depth, nodes);
            s.Walked? ==> CoerceItems(c, schema, s.values, depth, nodes) == s
    decreases MAX_DEPTH + 1 - depth, 0, |items|
  {
    if items != [] {
      CoerceIsIdempotent(c, schema, items[0], depth + 1, nodes);
      var s := Coerce(c, schema, items[0], depth + 1, nodes);
      ItemsAreIdempotent(c, schema, items[1..], depth, s.nodes);
      var rest := CoerceItems(c, schema, items[1..], depth, s.nodes);
      if s.result.Returned? && rest.Walked? {
        assert ([s.result.value] + rest.values)[1..] == rest.values;
      }
    }
  }

  lemma {:induction false} FieldsAreIdempotent(c: V.Context, schema: Json, fields: seq<Field>, depth: nat, nodes: nat)
    requires DefinitionsUnionFree(c.root) && UnionFree(schema) && depth <= MAX_DEPTH
    ensures var s := CoerceFields(c, schema, fields, depth, nodes);
            s.Walked? ==> CoerceFields(c, schema, s.values, depth, nodes) == s
    decreases MAX_DEPTH + 1 - depth, 0, |fields| + 1
  {
    if fields != [] {
      var s := CoerceField(c, schema, fields[0], depth, nodes);
      var choice := ChooseField(c, schema, fields[0].name);
      if choice.Chosen? {
        ChosenUnionFree(c, schema, fields[0].name);
        CoerceIsIdempotent(c, choice.schema, fields[0].value, depth + 1, nodes);
      }
      FieldsAreIdempotent(c, schema, fields[1..], depth, s.nodes);
      var rest := CoerceFields(c, schema, fields[1..], depth, s.nodes);
      if s.result.Returned? && rest.Walked? {
        var first := Field(fields[0].name, s.result.value);
        assert ([first] + rest.values)[1..] == rest.values;
        assert CoerceField(c, schema, first, depth, nodes) == s;
      }
    }
  }
}

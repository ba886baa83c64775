/** `omission_only` of sdk/generate_clients.py. */
module SchemaNormalisation {
  import opened Wrappers
  import opened Json
  import opened SchemaValidation

  // ---------------------------------------------------------------- the rewrite

  function DropNull(kinds: seq<Json>): (r: seq<Json>)
    ensures |r| <= |kinds|
  {
    if kinds == [] then []
    else if kinds[0] == Text("null") then DropNull(kinds[1..])
    else [kinds[0]] + DropNull(kinds[1..])
  }

  /** `schema_types(item) == ["null"]` */
  predicate IsNullSchema(item: Json) {
    match Get(item, "type")
    case Some(Text(kind)) => kind == "null"
    case Some(Array(kinds)) => kinds == [Text("null")]
    case _ => false
  }

  function DropNullSchemas(variants: seq<Json>): (r: seq<Json>) {
    if variants == [] then []
    else if IsNullSchema(variants[0]) then DropNullSchemas(variants[1..])
    else [variants[0]] + DropNullSchemas(variants[1..])
  }

  /** What happens to a dictionary's value after its own rewrite, by the key it stands under. */
  function Finish(name: string, value: Json): (r: Json) {
    if name == "type" && value.Array? && Text("null") in value.items then
      var remaining := DropNull(value.items);
      if |remaining| == 1 then remaining[0] else Array(remaining)
    else if (name == "oneOf" || name == "anyOf") && value.Array? then Array(DropNullSchemas(value.items))
    else value
  }

  function OmissionOnly(j: Json): (r: Json)
    decreases j, 0
  {
    match j
    case Array(items) => Array(RewriteItems(items))
    case Object(fields) => Object(RewriteFields(fields))
    case _ => j
  }

  function RewriteItems(items: seq<Json>): (r: seq<Json>)
    ensures |r| == |items|
    decreases items, 0
  {
    if items == [] then [] else [OmissionOnly(items[0])] + RewriteItems(items[1..])
  }

  function RewriteField(field: Field): (r: Field)
    decreases field, 0
  {
    Field(field.name, Finish(field.name, OmissionOnly(field.value)))
  }

  function RewriteFields(fields: seq<Field>): (r: seq<Field>)
    ensures |r| == |fields|
    decreases fields, 0
  {
    if fields == [] then [] else [RewriteField(fields[0])] + RewriteFields(fields[1..])
  }

  // ---------------------------------------------------------------- the rewrite on a mutable dictionary

  predicate NamesAbsent(fields: seq<Field>, name: string) {
    fields == [] || (fields[0].name != name && NamesAbsent(fields[1..], name))
  }

  predicate NamesDistinct(fields: seq<Field>) {
    fields == [] || (NamesAbsent(fields[1..], fields[0].name) && NamesDistinct(fields[1..]))
  }

  /** Objects are dictionaries: no name is repeated. */
  predicate Dictionaries(j: Json)
    decreases j, 0
  {
    match j
    case Array(items) => ItemsDictionaries(items)
    case Object(fields) => NamesDistinct(fields) && FieldsDictionaries(fields)
    case _ => true
  }

  predicate ItemsDictionaries(items: seq<Json>)
    decreases items, 0
  {
    items == [] || (Dictionaries(items[0]) && ItemsDictionaries(items[1..]))
  }

  predicate FieldDictionaries(field: Field)
    decreases field, 0
  {
    Dictionaries(field.value)
  }

  predicate FieldsDictionaries(fields: seq<Field>)
    decreases fields, 0
  {
    fields == [] || (FieldDictionaries(fields[0]) && FieldsDictionaries(fields[1..]))
  }

  predicate AllObjects(items: seq<Json>) {
    items == [] || (items[0].Object? && AllObjects(items[1..]))
  }

  /** Every listed alternative is a dictionary; reading the type of anything else raises. */
  predicate Readable(j: Json)
    decreases j, 0
  {
    match j
    case Array(items) => ItemsReadable(items)
    case Object(fields) => FieldsReadable(fields) && VariantsReadable(fields, "oneOf") && VariantsReadable(fields, "anyOf")
    case _ => true
  }

  predicate VariantsReadable(fields: seq<Field>, keyword: string) {
    match Lookup(fields, keyword)
    case Some(Array(items)) => AllObjects(items)
    case _ => true
  }

  predicate ItemsReadable(items: seq<Json>)
    decreases items, 0
  {
    items == [] || (Readable(items[0]) && ItemsReadable(items[1..]))
  }

  predicate FieldReadable(field: Field)
    decreases field, 0
  {
    Readable(field.value)
  }

  predicate FieldsReadable(fields: seq<Field>)
    decreases fields, 0
  {
    fields == [] || (FieldReadable(fields[0]) && FieldsReadable(fields[1..]))
  }

  /** Fields with their values rewritten, and those under the listed keys finished. */
  function FinishedFor(fields: seq<Field>, keys: set<string>): (r: seq<Field>)
    ensures |r| == |fields|
  {
    if fields == [] then [] else
      var value := OmissionOnly(fields[0].value);
      [Field(fields[0].name, if fields[0].name in keys then Finish(fields[0].name, value) else value)] + FinishedFor(fields[1..], keys)
  }

  lemma {:induction false} FinishedForAbsent(fields: seq<Field>, keys: set<string>, name: string)
    requires NamesAbsent(fields, name)
    ensures FinishedFor(fields, keys + {name}) == FinishedFor(fields, keys)
    ensures Lookup(FinishedFor(fields, keys), name).None?
  {
    if fields != [] {
      FinishedForAbsent(fields[1..], keys, name);
      assert FinishedFor(fields, keys)[1..] == FinishedFor(fields[1..], keys);
    }
  }

  /** `normalized[key] = ...` on a dictionary finishes exactly that key. */
  lemma {:induction false} FinishKey(fields: seq<Field>, keys: set<string>, name: string)
    requires NamesDistinct(fields) && name !in keys
    ensures var done := FinishedFor(fields, keys);
            && Lookup(done, name) == (match Lookup(fields, name) case None => None case Some(v) => Some(OmissionOnly(v)))
            && FinishedFor(fields, keys + {name}) ==
               match Lookup(done, name) case None => done case Some(v) => SetField(done, name, Finish(name, v))
  {
    if fields != [] {
      var done := FinishedFor(fields, keys);
      assert done[1..] == FinishedFor(fields[1..], keys);
      if fields[0].name == name {
        FinishedForAbsent(fields[1..], keys, name);
      } else {
        FinishKey(fields[1..], keys, name);
      }
    }
  }

  lemma {:induction false} FinishedIsRewritten(fields: seq<Field>)
    ensures FinishedFor(fields, {"type", "oneOf", "anyOf"}) == RewriteFields(fields)
  {
    if fields != [] {
      FinishedIsRewritten(fields[1..]);
      assert RewriteField(fields[0]) == FinishedFor(fields, {"type", "oneOf", "anyOf"})[0];
    }
  }

  lemma {:induction false} RewriteKeepsObjects(items: seq<Json>)
    ensures AllObjects(RewriteItems(items)) == AllObjects(items)
  {
    if items != [] {
      RewriteKeepsObjects(items[1..]);
      assert RewriteItems(items)[1..] == RewriteItems(items[1..]);
    }
  }

  /** `omission_only`; `None` is the AttributeError on an alternative that is no dictionary. */
  method RunOmissionOnly(value: Json) returns (r: Option<Json>)
    requires Dictionaries(value)
    ensures r == if Readable(value) then Some(OmissionOnly(value)) else None
    decreases value, 0
  {
    match value {
      case Array(items) =>
        var rewritten := RunItems(items);
        r := if rewritten.None? then None else Some(Array(rewritten.value));
      case Object(fields) =>
        var start := RunFields(fields);
        if start.None? {
          return None;
        }
        var normalized := start.value;
        FinishKey(fields, {}, "type");
        var declared := Lookup(normalized, "type");
        if declared.Some? && declared.value.Array? && Text("null") in declared.value.items {
          var remaining := DropNull(declared.value.items);
          normalized := SetField(normalized, "type", if |remaining| == 1 then remaining[0] else Array(remaining));
        } else if declared.Some? {
          SetFieldSame(normalized, "type", declared.value);
        }
        assert {} + {"type"} == {"type"};
        assert normalized == FinishedFor(fields, {"type"});
        var step := RunVariants(fields, normalized, {"type"}, "oneOf");
        if step.None? {
          return None;
        }
        step := RunVariants(fields, step.value, {"type"} + {"oneOf"}, "anyOf");
        if step.None? {
          return None;
        }
        assert {"type"} + {"oneOf"} + {"anyOf"} == {"type", "oneOf", "anyOf"};
        FinishedIsRewritten(fields);
        r := Some(Object(step.value));
      case _ => r := Some(value);
    }
  }

  /** One turn of the loop over `oneOf` and `anyOf`. */
  method RunVariants(fields: seq<Field>, normalized: seq<Field>, ghost keys: set<string>, keyword: string)
    returns (r: Option<seq<Field>>)
    requires NamesDistinct(fields) && normalized == FinishedFor(fields, keys)
    requires keyword !in keys && (keyword == "oneOf" || keyword == "anyOf")
    ensures r == if VariantsReadable(fields, keyword) then Some(FinishedFor(fields, keys + {keyword})) else None
  {
    FinishKey(fields, keys, keyword);
    var variants := Lookup(normalized, keyword);
    if variants.None? || !variants.value.Array? {
      if variants.Some? { SetFieldSame(normalized, keyword, variants.value); }
      return Some(normalized);
    }
    RewriteKeepsObjects(Lookup(fields, keyword).value.items);
    if !AllObjects(variants.value.items) {
      return None;
    }
    r := Some(SetField(normalized, keyword, Array(DropNullSchemas(variants.value.items))));
  }

  method RunItems(items: seq<Json>) returns (r: Option<seq<Json>>)
    requires ItemsDictionaries(items)
    ensures r == if ItemsReadable(items) then Some(RewriteItems(items)) else None
    decreases items, 0
  {
    if items == [] {
      return Some([]);
    }
    var first := RunOmissionOnly(items[0]);
    var rest := RunItems(items[1..]);
    r := if first.None? || rest.None? then None else Some([first.value] + rest.value);
  }

  method RunFields(fields: seq<Field>) returns (r: Option<seq<Field>>)
    requires FieldsDictionaries(fields)
    ensures r == if FieldsReadable(fields) then Some(FinishedFor(fields, {})) else None
    decreases fields, 0
  {
    if fields == [] {
      return Some([]);
    }
    var field := fields[0];
    assert FieldDictionaries(field);
    var first := RunField(field);
    var rest := RunFields(fields[1..]);
    r := if first.None? || rest.None? then None else Some([first.value] + rest.value);
  }

  method RunField(field: Field) returns (r: Option<Field>)
    requires FieldDictionaries(field)
    ensures r == if FieldReadable(field) then Some(Field(field.name, OmissionOnly(field.value))) else None
    decreases field, 0
  {
    var child := RunOmissionOnly(field.value);
    r := if child.None? then None else Some(Field(field.name, child.value));
  }

  // ---------------------------------------------------------------- schemas in the scope of the result

  /** A null alternative that says nothing else the validator would look at first. */
  predicate BareNull(item: Json) {
    IsNullSchema(OmissionOnly(item)) ==> !IsReference(item) && Alternatives(item).None?
  }

  /** A list where a table should hold a schema: it must still be a list once the keyword of its name is finished. */
  predicate StaysList(field: Field) {
    field.value.Array? ==> RewriteField(field).value.Array?
  }

  /** Schema positions only: null alternatives are bare, and lists in tables of schemas stay lists. */
  predicate WellFormed(j: Json)
    decreases j, 0
  {
    j.Object? ==> KeywordsWellFormed(j.fields)
  }

  predicate KeywordsWellFormed(fields: seq<Field>)
    decreases fields, 0
  {
    fields == [] || (KeywordWellFormed(fields[0]) && KeywordsWellFormed(fields[1..]))
  }

  predicate KeywordWellFormed(field: Field)
    decreases field, 0
  {
    match field.value
    case Array(items) =>
      (field.name == "oneOf" || field.name == "anyOf") ==> VariantsWellFormed(items)
    case Object(fields) =>
      if IsTable(field.name) then TableWellFormed(fields)
      else if field.name == "items" || field.name == "additionalProperties" then WellFormed(field.value)
      else true
    case _ => true
  }

  predicate VariantsWellFormed(items: seq<Json>)
    decreases items, 0
  {
    items == [] || (BareNull(items[0]) && WellFormed(items[0]) && VariantsWellFormed(items[1..]))
  }

  predicate TableWellFormed(fields: seq<Field>)
    decreases fields, 0
  {
    fields == [] || (EntryWellFormed(fields[0]) && TableWellFormed(fields[1..]))
  }

  predicate EntryWellFormed(field: Field)
    decreases field, 0
  {
    StaysList(field) && WellFormed(field.value)
  }

  // ---------------------------------------------------------------- lookups commute with the rewrite

  function Rewritten(name: string, found: Option<Json>): (r: Option<Json>) {
    match found
    case None => None
    case Some(value) => Some(Finish(name, OmissionOnly(value)))
  }

  lemma {:induction false} LookupRewritten(fields: seq<Field>, name: string)
    ensures Lookup(RewriteFields(fields), name) == Rewritten(name, Lookup(fields, name))
  {
    if fields != [] {
      LookupRewritten(fields[1..], name);
      assert RewriteFields(fields)[1..] == RewriteFields(fields[1..]);
    }
  }

  lemma {:induction false} GetRewritten(schema: Json, name: string)
    ensures Get(OmissionOnly(schema), name) == Rewritten(name, Get(schema, name))
  {
    if schema.Object? {
      LookupRewritten(schema.fields, name);
    }
  }

  /** Keywords other than the three rewritten ones keep their scalars and the shape of everything else. */
  lemma {:induction false} PlainKeyword(schema: Json, name: string)
    requires name != "type" && name != "oneOf" && name != "anyOf"
    ensures Get(schema, name).None? ==> Get(OmissionOnly(schema), name).None?
    ensures Get(schema, name).Some? ==> Get(OmissionOnly(schema), name) == Some(OmissionOnly(Get(schema, name).value))
  {
    GetRewritten(schema, name);
  }

  lemma {:induction false} KeywordAt(fields: seq<Field>, name: string)
    requires KeywordsWellFormed(fields) && Lookup(fields, name).Some?
    ensures KeywordWellFormed(Field(name, Lookup(fields, name).value))
  {
    if fields[0].name != name {
      KeywordAt(fields[1..], name);
    }
  }

  lemma {:induction false} TableAt(fields: seq<Field>, name: string)
    requires TableWellFormed(fields) && Lookup(fields, name).Some?
    ensures EntryWellFormed(Field(name, Lookup(fields, name).value))
  {
    if fields[0].name != name {
      TableAt(fields[1..], name);
    }
  }

  /** The rewritten schema, or another list where the original is a list: no keyword can be read off either. */
  predicate SameSchema(rewritten: Json, original: Json) {
    rewritten == OmissionOnly(original) || (rewritten.Array? && original.Array?)
  }

  lemma {:induction false} EntryKept(field: Field)
    requires EntryWellFormed(field)
    ensures SameSchema(RewriteField(field).value, field.value) && WellFormed(field.value)
  {
  }

  /** Looking a name up in a table of schemas finds the rewritten schema. */
  lemma {:induction false} TableLookup(fields: seq<Field>, name: string)
    requires TableWellFormed(fields)
    ensures Lookup(RewriteFields(fields), name).Some? <==> Lookup(fields, name).Some?
    ensures Lookup(fields, name).Some? ==>
              SameSchema(Lookup(RewriteFields(fields), name).value, Lookup(fields, name).value) && WellFormed(Lookup(fields, name).value)
  {
    LookupRewritten(fields, name);
    if Lookup(fields, name).Some? {
      TableAt(fields, name);
      EntryKept(Field(name, Lookup(fields, name).value));
    }
  }

  lemma {:induction false} TableOf(schema: Json, name: string)
    requires WellFormed(schema) && IsTable(name)
    ensures TableWellFormed(FieldsOf(Get(schema, name)))
    ensures FieldsOf(Get(OmissionOnly(schema), name)) == RewriteFields(FieldsOf(Get(schema, name)))
  {
    PlainKeyword(schema, name);
    if Get(schema, name).Some? {
      KeywordAt(schema.fields, name);
      assert KeywordWellFormed(Field(name, Get(schema, name).value));
    }
  }

  lemma {:induction false} ResolveRewritten(root: Json, reference: string)
    requires WellFormed(root)
    ensures Resolve(OmissionOnly(root), reference) ==
      match Resolve(root, reference) case None => None case Some(target) => Some(OmissionOnly(target))
    ensures Resolve(root, reference).Some? ==> WellFormed(Resolve(root, reference).value)
  {
    PlainKeyword(root, "$defs");
    TableOf(root, "$defs");
    TableLookup(FieldsOf(Get(root, "$defs")), DefinitionName(reference));
  }

  lemma {:induction false} ReferenceRewritten(schema: Json)
    ensures IsReference(OmissionOnly(schema)) == IsReference(schema)
    ensures IsReference(schema) ==> Get(OmissionOnly(schema), "$ref") == Get(schema, "$ref")
  {
    PlainKeyword(schema, "$ref");
  }

  lemma {:induction false} AlternativesRewritten(schema: Json)
    requires WellFormed(schema)
    ensures Alternatives(OmissionOnly(schema)) ==
      match Alternatives(schema) case None => None case Some(items) => Some(DropNullSchemas(RewriteItems(items)))
    ensures Get(OmissionOnly(schema), "oneOf").Some? == Get(schema, "oneOf").Some?
    ensures Alternatives(schema).Some? ==> VariantsWellFormed(Alternatives(schema).value)
  {
    GetRewritten(schema, "oneOf");
    GetRewritten(schema, "anyOf");
    if Get(schema, "oneOf").Some? { KeywordAt(schema.fields, "oneOf"); }
    if Get(schema, "anyOf").Some? { KeywordAt(schema.fields, "anyOf"); }
  }

  // ---------------------------------------------------------------- checks without recursion

  function RewriteContext(c: Context): (r: Context) {
    Context(OmissionOnly(c.root), c.match_)
  }

  lemma {:induction false} StringKept(c: Context, schema: Json, value: Json)
    ensures StringVerdict(RewriteContext(c), OmissionOnly(schema), value) == StringVerdict(c, schema, value)
  {
    PlainKeyword(schema, "minLength");
    PlainKeyword(schema, "maxLength");
    PlainKeyword(schema, "pattern");
  }

  lemma {:induction false} IntegerKept(schema: Json, value: Json)
    ensures IntegerVerdict(OmissionOnly(schema), value) == IntegerVerdict(schema, value)
  {
    PlainKeyword(schema, "format");
    if value.BigInt? {
      RangeKept(schema, value.integer as real);
    } else if value.Number? {
      RangeKept(schema, value.number);
    }
  }

  lemma {:induction false} RangeKept(schema: Json, numeric: real)
    ensures RangeVerdict(OmissionOnly(schema), numeric) == RangeVerdict(schema, numeric)
  {
    PlainKeyword(schema, "minimum");
    PlainKeyword(schema, "maximum");
  }

  lemma {:induction false} RequiredKept(names: seq<Json>, fields: seq<Field>)
    ensures HasRequired(RewriteItems(names), fields) == HasRequired(names, fields)
  {
    if names != [] {
      RequiredKept(names[1..], fields);
      assert RewriteItems(names)[1..] == RewriteItems(names[1..]);
    }
  }

  lemma {:induction false} AdmissionKept(schema: Json, fields: seq<Field>, items: seq<Json>)
    ensures ObjectAdmitted(OmissionOnly(schema), fields) == ObjectAdmitted(schema, fields)
    ensures ArrayAdmitted(OmissionOnly(schema), items) == ArrayAdmitted(schema, items)
  {
    PlainKeyword(schema, "required");
    PlainKeyword(schema, "minProperties");
    PlainKeyword(schema, "maxProperties");
    PlainKeyword(schema, "minItems");
    PlainKeyword(schema, "maxItems");
    RequiredKept(RequiredNames(schema), fields);
  }

  predicate EachWellFormed(schemas: seq<Json>) {
    schemas == [] || (WellFormed(schemas[0]) && EachWellFormed(schemas[1..]))
  }

  predicate SameSchemas(rewritten: seq<Json>, original: seq<Json>) {
    if rewritten == [] || original == [] then rewritten == [] && original == []
    else SameSchema(rewritten[0], original[0]) && SameSchemas(rewritten[1..], original[1..])
  }

  predicate SamePlan(rewritten: FieldPlan, original: FieldPlan) {
    if original.Refuse? then rewritten.Refuse?
    else rewritten.Check? && SameSchemas(rewritten.schemas, original.schemas) && EachWellFormed(original.schemas)
  }

  lemma {:induction false} SameCons(a: Json, b: Json, rewritten: seq<Json>, original: seq<Json>)
    requires SameSchema(a, b) && SameSchemas(rewritten, original) && WellFormed(b) && EachWellFormed(original)
    ensures SameSchemas([a] + rewritten, [b] + original) && EachWellFormed([b] + original)
  {
    assert ([a] + rewritten)[1..] == rewritten && ([b] + original)[1..] == original;
  }

  lemma {:induction false} PatternsKept(c: Context, patterns: seq<Field>, name: string)
    requires TableWellFormed(patterns)
    ensures SamePlan(MatchingPatterns(RewriteContext(c), RewriteFields(patterns), name), MatchingPatterns(c, patterns, name))
  {
    if patterns != [] {
      PatternsKept(c, patterns[1..], name);
      assert RewriteFields(patterns)[1..] == RewriteFields(patterns[1..]);
      EntryKept(patterns[0]);
      var rest, rest' := MatchingPatterns(c, patterns[1..], name), MatchingPatterns(RewriteContext(c), RewriteFields(patterns[1..]), name);
      if rest.Check? {
        SameCons(RewriteField(patterns[0]).value, patterns[0].value, rest'.schemas, rest.schemas);
      }
    }
  }

  lemma {:induction false} SingletonKept(rewritten: Json, original: Json)
    requires SameSchema(rewritten, original) && WellFormed(original)
    ensures SamePlan(Check([rewritten]), Check([original]))
  {
    assert [rewritten][1..] == [] && [original][1..] == [];
  }

  lemma {:induction false} AdditionalKept(schema: Json)
    requires WellFormed(schema)
    ensures Get(schema, "additionalProperties").Some? ==>
      && Get(OmissionOnly(schema), "additionalProperties") == Some(OmissionOnly(Get(schema, "additionalProperties").value))
      && WellFormed(Get(schema, "additionalProperties").value)
    ensures Get(schema, "additionalProperties").None? ==> Get(OmissionOnly(schema), "additionalProperties").None?
  {
    PlainKeyword(schema, "additionalProperties");
    if Get(schema, "additionalProperties").Some? {
      KeywordAt(schema.fields, "additionalProperties");
      assert KeywordWellFormed(Field("additionalProperties", Get(schema, "additionalProperties").value));
    }
  }

  function AdditionalPlan(schema: Json): (r: FieldPlan) {
    match Get(schema, "additionalProperties")
    case Some(Bool(false)) => Refuse
    case Some(Object(fields)) => Check([Object(fields)])
    case Some(Array(items)) => Check([Array(items)])
    case _ => Check([])
  }

  lemma {:induction false} AdditionalPlanKept(schema: Json)
    requires WellFormed(schema)
    ensures SamePlan(AdditionalPlan(OmissionOnly(schema)), AdditionalPlan(schema))
  {
    AdditionalKept(schema);
    var additional := Get(schema, "additionalProperties");
    if additional.Some? {
      SingletonKept(OmissionOnly(additional.value), additional.value);
    }
  }

  lemma {:induction false} PlanKept(c: Context, schema: Json, name: string)
    requires WellFormed(schema)
    ensures SamePlan(PlanField(RewriteContext(c), OmissionOnly(schema), name), PlanField(c, schema, name))
  {
    var properties, patterns := FieldsOf(Get(schema, "properties")), FieldsOf(Get(schema, "patternProperties"));
    TableOf(schema, "properties");
    TableOf(schema, "patternProperties");
    TableLookup(properties, name);
    if Lookup(properties, name).Some? {
      SingletonKept(Lookup(RewriteFields(properties), name).value, Lookup(properties, name).value);
    } else {
      PatternsKept(c, patterns, name);
      AdditionalPlanKept(schema);
    }
  }

  // ---------------------------------------------------------------- null never fits

  lemma {:induction false} DropNullMembers(kinds: seq<Json>, kind: Json)
    requires kind in DropNull(kinds)
    ensures kind in kinds && kind != Text("null")
  {
    if kinds[0] == Text("null") || kind != kinds[0] {
      DropNullMembers(kinds[1..], kind);
    }
  }

  lemma {:induction false} RewrittenKinds(kinds: seq<Json>)
    ensures Text("null") in RewriteItems(kinds) <==> Text("null") in kinds
    ensures DropNull(RewriteItems(kinds)) == RewriteItems(DropNull(kinds))
  {
    if kinds != [] {
      RewrittenKinds(kinds[1..]);
      assert kinds == [kinds[0]] + kinds[1..];
      assert RewriteItems(kinds)[1..] == RewriteItems(kinds[1..]);
      if kinds[0] != Text("null") {
        var kept := [kinds[0]] + DropNull(kinds[1..]);
        assert kept[1..] == DropNull(kinds[1..]);
      }
    }
  }

  /** The type null, or a list of it and of exactly one list that holds it alone. */
  predicate NullOnly(declared: Option<Json>) {
    match declared
    case Some(Text(kind)) => kind == "null"
    case Some(Array(kinds)) => Text("null") in kinds && DropNull(kinds) == [Array([Text("null")])]
    case _ => false
  }

  lemma {:induction false} SingleNull(items: seq<Json>)
    ensures RewriteItems(items) == [Text("null")] <==> items == [Text("null")]
  {
    if |items| == 1 {
      assert items == [items[0]];
      assert items[1..] == [];
    }
  }

  lemma {:induction false} SingleList(items: seq<Json>)
    ensures RewriteItems(items) == [Array([Text("null")])] <==> items == [Array([Text("null")])]
  {
    if |items| == 1 {
      assert items == [items[0]];
      assert items[1..] == [];
      if items[0].Array? {
        SingleNull(items[0].items);
      }
    }
  }

  /** An alternative is dropped if and only if its type admits null alone in one of two spellings; `["null"]` itself is not one. */
  lemma {:induction false} NullSchemaOrigin(item: Json)
    ensures IsNullSchema(OmissionOnly(item)) <==> NullOnly(Get(item, "type"))
  {
    GetRewritten(item, "type");
    if Get(item, "type").Some? && Get(item, "type").value.Array? {
      NullListOrigin(Get(item, "type").value.items);
    }
  }

  lemma {:induction false} NullListOrigin(kinds: seq<Json>)
    ensures var finished := Finish("type", OmissionOnly(Array(kinds)));
            (finished == Text("null") || finished == Array([Text("null")])) <==> NullOnly(Some(Array(kinds)))
  {
    var items, remaining := RewriteItems(kinds), DropNull(RewriteItems(kinds));
    RewrittenKinds(kinds);
    SingleList(DropNull(kinds));
    if Text("null") in kinds {
      if |remaining| == 1 {
        DropNullMembers(items, remaining[0]);
        assert remaining == [remaining[0]];
      }
    } else {
      assert items == [Text("null")] ==> Text("null") in items;
    }
  }

  /** Nothing but null fits a schema that declares the type null and no earlier keyword decides. */
  lemma {:induction false} NullTypeRejects(c: Context, schema: Json, value: Json, depth: nat, b: Budget)
    requires Get(schema, "type") == Some(Text("null")) && !IsReference(schema) && Alternatives(schema).None?
    requires !value.Null?
    ensures Validate(c, schema, value, depth, b).verdict != Accept
  {
    if depth <= MAX_DEPTH {
      var counted := Budget(b.nodes + 1, b.hit);
      assert ValidateType(c, schema, value, depth, counted).verdict == Reject;
      assert ValidateCounted(c, schema, value, depth, counted).verdict == Reject;
    }
  }
}

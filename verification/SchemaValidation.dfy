/**
  The runtime validator that sdk/generate_clients.py emits into the TypeScript
  client, as a function that threads the node budget.

  A run also records whether it ever hit the nesting or node bound, because the
  validator turns a bound failure inside a probe into an ordinary mismatch.
  */
module SchemaValidation {
  import opened Wrappers
  import opened Bytes
  import opened Json

  datatype PatternResult = Matches | Differs | UnsupportedPattern

  /** The root schema, and the fixed table of supported regular expressions. */
  datatype Context = Context(root: Json, match_: (string, string) -> PatternResult)

  datatype Verdict =
    | Accept
    | Reject  // a ValidationError
    | Crash   // any other exception

  datatype Budget = Budget(nodes: nat, hit: bool)
  datatype Outcome = Outcome(verdict: Verdict, budget: Budget)
  datatype Tally = Tally(matches: nat, budget: Budget)

  const MAX_DEPTH: nat := 64
  const MAX_NODES: nat := 100_000
  const MAX_SAFE: int := 9_007_199_254_740_991

  // ---------------------------------------------------------------- reading a schema

  const DEFS: string := "#/$defs/"

  /** `reference.replace("#/$defs/", "")`: drops the first occurrence. */
  function DefinitionName(reference: string): (r: string) {
    if reference == "" then ""
    else if DEFS <= reference then reference[|DEFS|..]
    else [reference[0]] + DefinitionName(reference[1..])
  }

  function Resolve(root: Json, reference: string): (r: Option<Json>) {
    match Get(root, "$defs")
    case Some(Object(definitions)) =>
      (match Lookup(definitions, DefinitionName(reference))
       case Some(Object(fields)) => Some(Object(fields))
       case _ => None)
    case _ => None
  }

  /** `schema["oneOf"] ?? schema["anyOf"]`, when that is an array. */
  function Alternatives(schema: Json): (r: Option<seq<Json>>) {
    var oneOf := Get(schema, "oneOf");
    var chosen := if oneOf.None? || oneOf.value.Null? then Get(schema, "anyOf") else oneOf;
    match chosen
    case Some(Array(items)) => Some(items)
    case _ => None
  }

  predicate IsReference(schema: Json) {
    match Get(schema, "$ref")
    case Some(Text(_)) => true
    case _ => false
  }

  /** Keywords whose value is a table of named schemas. */
  predicate IsTable(name: string) {
    name == "properties" || name == "patternProperties" || name == "$defs"
  }

  function FieldsOf(j: Option<Json>): (r: seq<Field>) {
    match j
    case Some(Object(fields)) => fields
    case _ => []
  }

  function WithType(schema: Json, kind: Json): (r: Json) {
    match schema
    case Object(fields) => Object(SetField(fields, "type", kind))
    case _ => Object([Field("type", kind)])
  }

  /** `===`: structured values are never identical to a constant of the schema. */
  predicate StrictlyEqual(a: Json, b: Json) {
    a == b && !a.Array? && !a.Object?
  }

  predicate IsSafeInteger(x: real) {
    x.Floor as real == x && -MAX_SAFE <= x.Floor <= MAX_SAFE
  }

  predicate IsWide(schema: Json) {
    Get(schema, "format") == Some(Text("int64")) || Get(schema, "format") == Some(Text("uint64"))
  }

  /** A numeric keyword bounds `x` from below, respectively above, when it is a number at all. */
  predicate AtLeast(bound: Option<Json>, x: real) {
    match bound
    case Some(Number(b)) => x >= b
    case _ => true
  }

  predicate AtMost(bound: Option<Json>, x: real) {
    match bound
    case Some(Number(b)) => x <= b
    case _ => true
  }

  predicate Fractional(bound: Option<Json>) {
    match bound
    case Some(Number(b)) => b.Floor as real != b
    case _ => false
  }

  // ---------------------------------------------------------------- verdicts without recursion

  function StringVerdict(c: Context, schema: Json, value: Json): (r: Verdict) {
    if !value.Text? then Reject else
      var length := |Utf8(value.text)| as real;
      if !AtLeast(Get(schema, "minLength"), length) || !AtMost(Get(schema, "maxLength"), length) then Reject else
        match Get(schema, "pattern")
        case None => Accept
        case Some(Text(p)) => if c.match_(p, value.text) == Matches then Accept else Reject
        case Some(_) => Reject
  }

  /** `BigInt(bound)` throws a RangeError on a fractional bound. */
  function RangeVerdict(schema: Json, numeric: real): (r: Verdict) {
    if Fractional(Get(schema, "minimum")) then Crash
    else if !AtLeast(Get(schema, "minimum"), numeric) then Reject
    else if Fractional(Get(schema, "maximum")) then Crash
    else if !AtMost(Get(schema, "maximum"), numeric) then Reject
    else Accept
  }

  function IntegerVerdict(schema: Json, value: Json): (r: Verdict) {
    if IsWide(schema) && value.BigInt? then RangeVerdict(schema, value.integer as real)
    else if !IsWide(schema) && value.Number? && IsSafeInteger(value.number) then RangeVerdict(schema, value.number)
    else Reject
  }

  predicate HasRequired(names: seq<Json>, fields: seq<Field>) {
    names == [] || ((names[0].Text? ==> Lookup(fields, names[0].text).Some?) && HasRequired(names[1..], fields))
  }

  function RequiredNames(schema: Json): (r: seq<Json>) {
    match Get(schema, "required")
    case Some(Array(names)) => names
    case _ => []
  }

  /** Checks on an object that come before its fields are visited. */
  predicate ObjectAdmitted(schema: Json, fields: seq<Field>) {
    && HasRequired(RequiredNames(schema), fields)
    && AtLeast(Get(schema, "minProperties"), |fields| as real)
    && AtMost(Get(schema, "maxProperties"), |fields| as real)
  }

  predicate ArrayAdmitted(schema: Json, items: seq<Json>) {
    AtLeast(Get(schema, "minItems"), |items| as real) && AtMost(Get(schema, "maxItems"), |items| as real)
  }

  /** What a field must satisfy: a list of schemas, or refusal outright. */
  datatype FieldPlan = Refuse | Check(schemas: seq<Json>)

  function MatchingPatterns(c: Context, patterns: seq<Field>, name: string): (r: FieldPlan) {
    if patterns == [] then Check([]) else
      match (c.match_(patterns[0].name, name), MatchingPatterns(c, patterns[1..], name))
      case (UnsupportedPattern, _) => Refuse
      case (_, Refuse) => Refuse
      case (Matches, Check(rest)) => Check([patterns[0].value] + rest)
      case (Differs, Check(rest)) => Check(rest)
  }

  function PlanField(c: Context, schema: Json, name: string): (r: FieldPlan) {
    match Lookup(FieldsOf(Get(schema, "properties")), name)
    case Some(child) => Check([child])
    case None =>
      var matched := MatchingPatterns(c, FieldsOf(Get(schema, "patternProperties")), name);
      if matched.Refuse? || matched.schemas != [] then matched else
        match Get(schema, "additionalProperties")
        case Some(Bool(false)) => Refuse
        case Some(Object(fields)) => Check([Object(fields)])
        case Some(Array(items)) => Check([Array(items)])
        case _ => Check([])
  }

  predicate DescribesObject(schema: Json) {
    Get(schema, "properties").Some? || Get(schema, "additionalProperties").Some?
  }

  /** The cases the validator tells apart in the `type` keyword. */
  datatype Kind =
    | Union(kinds: seq<Json>) | NullKind | StringKind | NumberKind | BoolKind | ArrayKind | ObjectKind | OtherKind

  function KindOf(declared: Option<Json>): (r: Kind) {
    match declared
    case Some(Array(kinds)) => Union(kinds)
    case Some(Text(kind)) =>
      if kind == "null" then NullKind
      else if kind == "string" then StringKind
      else if kind == "integer" || kind == "number" then NumberKind
      else if kind == "boolean" then BoolKind
      else if kind == "array" then ArrayKind
      else if kind == "object" then ObjectKind
      else OtherKind
    case _ => OtherKind
  }

  // ---------------------------------------------------------------- the validator

  /** Counting only goes up, and having hit a bound is never forgotten. */
  predicate Spends(before: Budget, after: Budget) {
    before.nodes <= after.nodes && (before.hit ==> after.hit)
  }

  function Validate(c: Context, schema: Json, value: Json, depth: nat, b: Budget): (r: Outcome)
    ensures Spends(b, r.budget)
    decreases MAX_DEPTH + 1 - depth, 4
  {
    if depth > MAX_DEPTH then Outcome(Reject, Budget(b.nodes, true))
    else if b.nodes + 1 > MAX_NODES then Outcome(Reject, Budget(b.nodes + 1, true))
    else ValidateCounted(c, schema, value, depth, Budget(b.nodes + 1, b.hit))
  }

  function ValidateCounted(c: Context, schema: Json, value: Json, depth: nat, b: Budget): (r: Outcome)
    requires depth <= MAX_DEPTH
    ensures Spends(b, r.budget)
    decreases MAX_DEPTH + 1 - depth, 3
  {
    if !schema.Object? && !schema.Array? then Outcome(Crash, b)
    else if IsReference(schema) then
      (match Resolve(c.root, Get(schema, "$ref").value.text)
       case None => Outcome(Reject, b)
       case Some(target) => Validate(c, target, value, depth + 1, b))
    else
      match Alternatives(schema)
      case Some(alternatives) =>
        var t := Probe(c, alternatives, value, depth, b);
        var enough := if Get(schema, "oneOf").Some? then t.matches == 1 else t.matches >= 1;
        Outcome(if enough then Accept else Reject, t.budget)
      case None =>
        if Get(schema, "const").Some? && !StrictlyEqual(value, Get(schema, "const").value) then Outcome(Reject, b)
        else ValidateType(c, schema, value, depth, b)
  }

  function ValidateType(c: Context, schema: Json, value: Json, depth: nat, b: Budget): (r: Outcome)
    requires depth <= MAX_DEPTH
    ensures Spends(b, r.budget)
    decreases MAX_DEPTH + 1 - depth, 2
  {
    match KindOf(Get(schema, "type"))
    case Union(kinds) =>
      var t := ProbeKinds(c, schema, kinds, value, depth, b);
      Outcome(if t.matches == 1 then Accept else Reject, t.budget)
    case NullKind => Outcome(if value.Null? then Accept else Reject, b)
    case StringKind => Outcome(StringVerdict(c, schema, value), b)
    case NumberKind => Outcome(IntegerVerdict(schema, value), b)
    case BoolKind => Outcome(if value.Bool? then Accept else Reject, b)
    case ArrayKind => ValidateArray(c, schema, value, depth, b)
    case ObjectKind => ValidateObject(c, schema, value, depth, b)
    case OtherKind =>
      if DescribesObject(schema) then ValidateObject(c, schema, value, depth, b) else Outcome(Accept, b)
  }

  /** Tries every alternative; any failure inside one is only a mismatch. */
  function Probe(c: Context, alternatives: seq<Json>, value: Json, depth: nat, b: Budget): (r: Tally)
    requires depth <= MAX_DEPTH
    ensures Spends(b, r.budget)
    decreases MAX_DEPTH + 1 - depth, 0, |alternatives|
  {
    if alternatives == [] then Tally(0, b) else
      var o := Validate(c, alternatives[0], value, depth + 1, b);
      var rest := Probe(c, alternatives[1..], value, depth, o.budget);
      Tally((if o.verdict == Accept then 1 else 0) + rest.matches, rest.budget)
  }

  function ProbeKinds(c: Context, schema: Json, kinds: seq<Json>, value: Json, depth: nat, b: Budget): (r: Tally)
    requires depth <= MAX_DEPTH
    ensures Spends(b, r.budget)
    decreases MAX_DEPTH + 1 - depth, 0, |kinds|
  {
    if kinds == [] then Tally(0, b) else
      var o := Validate(c, WithType(schema, kinds[0]), value, depth + 1, b);
      var rest := ProbeKinds(c, schema, kinds[1..], value, depth, o.budget);
      Tally((if o.verdict == Accept then 1 else 0) + rest.matches, rest.budget)
  }

  function ValidateArray(c: Context, schema: Json, value: Json, depth: nat, b: Budget): (r: Outcome)
    requires depth <= MAX_DEPTH
    ensures Spends(b, r.budget)
    decreases MAX_DEPTH + 1 - depth, 1
  {
    if !value.Array? || !ArrayAdmitted(schema, value.items) then Outcome(Reject, b) else
      match Get(schema, "items")
      case Some(Object(fields)) => ValidateItems(c, Object(fields), value.items, depth, b)
      case Some(Array(items)) => ValidateItems(c, Array(items), value.items, depth, b)
      case _ => Outcome(Accept, b)
  }

  function ValidateItems(c: Context, schema: Json, items: seq<Json>, depth: nat, b: Budget): (r: Outcome)
    requires depth <= MAX_DEPTH
    ensures Spends(b, r.budget)
    decreases MAX_DEPTH + 1 - depth, 0, |items|
  {
    if items == [] then Outcome(Accept, b) else
      var o := Validate(c, schema, items[0], depth + 1, b);
      if o.verdict != Accept then o else ValidateItems(c, schema, items[1..], depth, o.budget)
  }

  function ValidateObject(c: Context, schema: Json, value: Json, depth: nat, b: Budget): (r: Outcome)
    requires depth <= MAX_DEPTH
    ensures Spends(b, r.budget)
    decreases MAX_DEPTH + 1 - depth, 1
  {
    if !value.Object? || !ObjectAdmitted(schema, value.fields) then Outcome(Reject, b)
    else ValidateFields(c, schema, value.fields, depth, b)
  }

  function ValidateFields(c: Context, schema: Json, fields: seq<Field>, depth: nat, b: Budget): (r: Outcome)
    requires depth <= MAX_DEPTH
    ensures Spends(b, r.budget)
    decreases MAX_DEPTH + 1 - depth, 0, |fields| + 1
  {
    if fields == [] then Outcome(Accept, b) else
      match PlanField(c, schema, fields[0].name)
      case Refuse => Outcome(Reject, b)
      case Check(schemas) =>
        var o := ValidateAll(c, schemas, fields[0].value, depth, b);
        if o.verdict != Accept then o else ValidateFields(c, schema, fields[1..], depth, o.budget)
  }

  function ValidateAll(c: Context, schemas: seq<Json>, value: Json, depth: nat, b: Budget): (r: Outcome)
    requires depth <= MAX_DEPTH
    ensures Spends(b, r.budget)
    decreases MAX_DEPTH + 1 - depth, 0, 0, |schemas|
  {
    if schemas == [] then Outcome(Accept, b) else
      var o := Validate(c, schemas[0], value, depth + 1, b);
      if o.verdict != Accept then o else ValidateAll(c, schemas[1..], value, depth, o.budget)
  }
}

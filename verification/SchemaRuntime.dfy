/**
  The emitted `validate` and `coerce` in the form the client runs them: one
  mutable node counter shared by the whole recursion, loops over alternatives,
  kinds, items and fields, and failed probes caught on the spot.
  */
module SchemaRuntime {
  import opened Wrappers
  import opened Json
  import opened V = SchemaValidation
  import C = SchemaCoercion
  import A = SchemaAlternatives

  class NodeBudget {
    var nodes: nat
    ghost var hit: bool

    constructor ()
      ensures State() == Budget(0, false)
    {
      nodes, hit := 0, false;
    }

    ghost function State(): (r: Budget)
      reads this
    {
      Budget(nodes, hit)
    }
  }

  // ---------------------------------------------------------------- validate

  method RunValidate(c: Context, schema: Json, value: Json, depth: nat, budget: NodeBudget) returns (v: Verdict)
    modifies budget
    ensures Outcome(v, budget.State()) == Validate(c, schema, value, depth, old(budget.State()))
    decreases V.MAX_DEPTH + 1 - depth, 4
  {
    if depth > V.MAX_DEPTH {
      budget.hit := true;
      return Reject;
    }
    budget.nodes := budget.nodes + 1;
    if budget.nodes > V.MAX_NODES {
      budget.hit := true;
      return Reject;
    }
    v := RunCounted(c, schema, value, depth, budget);
  }

  /** What follows once the node has been counted. */
  method RunCounted(c: Context, schema: Json, value: Json, depth: nat, budget: NodeBudget) returns (v: Verdict)
    requires depth <= V.MAX_DEPTH
    modifies budget
    ensures Outcome(v, budget.State()) == ValidateCounted(c, schema, value, depth, old(budget.State()))
    decreases V.MAX_DEPTH + 1 - depth, 3
  {
    if !schema.Object? && !schema.Array? {
      return Crash;
    }
    if IsReference(schema) {
      var target := Resolve(c.root, Get(schema, "$ref").value.text);
      if target.None? {
        return Reject;
      }
      v := RunValidate(c, target.value, value, depth + 1, budget);
      return;
    }
    var alternatives := Alternatives(schema);
    if alternatives.Some? {
      var matches := RunProbe(c, alternatives.value, value, depth, budget);
      var enough := if Get(schema, "oneOf").Some? then matches == 1 else matches >= 1;
      return if enough then Accept else Reject;
    }
    if Get(schema, "const").Some? && !StrictlyEqual(value, Get(schema, "const").value) {
      return Reject;
    }
    v := RunType(c, schema, value, depth, budget);
  }

  method RunType(c: Context, schema: Json, value: Json, depth: nat, budget: NodeBudget) returns (v: Verdict)
    requires depth <= V.MAX_DEPTH
    modifies budget
    ensures Outcome(v, budget.State()) == ValidateType(c, schema, value, depth, old(budget.State()))
    decreases V.MAX_DEPTH + 1 - depth, 2
  {
    var kind := KindOf(Get(schema, "type"));
    if kind.Union? {
      var matches := RunKinds(c, schema, kind.kinds, value, depth, budget);
      v := if matches == 1 then Accept else Reject;
    } else if kind.ArrayKind? {
      v := RunArray(c, schema, value, depth, budget);
    } else if kind.ObjectKind? || (kind.OtherKind? && DescribesObject(schema)) {
      v := RunObject(c, schema, value, depth, budget);
    } else {
      v := RunScalar(c, schema, value);
    }
  }

  method RunScalar(c: Context, schema: Json, value: Json) returns (v: Verdict)
    ensures v == match KindOf(Get(schema, "type"))
                 case NullKind => if value.Null? then Accept else Reject
                 case StringKind => StringVerdict(c, schema, value)
                 case NumberKind => IntegerVerdict(schema, value)
                 case BoolKind => if value.Bool? then Accept else Reject
                 case _ => Accept
  {
    match KindOf(Get(schema, "type")) {
      case NullKind => v := if value.Null? then Accept else Reject;
      case StringKind => v := StringVerdict(c, schema, value);
      case NumberKind => v := IntegerVerdict(schema, value);
      case BoolKind => v := if value.Bool? then Accept else Reject;
      case _ => v := Accept;
    }
  }

  ghost function Plus(matches: nat, t: Tally): (r: Tally) {
    Tally(matches + t.matches, t.budget)
  }

  method RunProbe(c: Context, alternatives: seq<Json>, value: Json, depth: nat, budget: NodeBudget) returns (matches: nat)
    requires depth <= V.MAX_DEPTH
    modifies budget
    ensures Tally(matches, budget.State()) == Probe(c, alternatives, value, depth, old(budget.State()))
    decreases V.MAX_DEPTH + 1 - depth, 0
  {
    matches := 0;
    for i := 0 to |alternatives|
      invariant Plus(matches, Probe(c, alternatives[i..], value, depth, budget.State())) ==
                Probe(c, alternatives, value, depth, old(budget.State()))
    {
      assert alternatives[i..][1..] == alternatives[i + 1..];
      var v := RunValidate(c, alternatives[i], value, depth + 1, budget);
      if v == Accept {
        matches := matches + 1;
      }
    }
  }

  method RunKinds(c: Context, schema: Json, kinds: seq<Json>, value: Json, depth: nat, budget: NodeBudget) returns (matches: nat)
    requires depth <= V.MAX_DEPTH
    modifies budget
    ensures Tally(matches, budget.State()) == ProbeKinds(c, schema, kinds, value, depth, old(budget.State()))
    decreases V.MAX_DEPTH + 1 - depth, 0, 1
  {
    matches := 0;
    ghost var goal := ProbeKinds(c, schema, kinds, value, depth, budget.State());
    assert kinds[0..] == kinds;
    for i := 0 to |kinds|
      invariant Plus(matches, ProbeKinds(c, schema, kinds[i..], value, depth, budget.State())) == goal
    {
      NextKind(c, schema, kinds, i, value, depth, budget.State());
      var v := RunKind(c, schema, kinds[i], value, depth, budget);
      if v == Accept {
        matches := matches + 1;
      }
    }
  }

  method RunKind(c: Context, schema: Json, kind: Json, value: Json, depth: nat, budget: NodeBudget) returns (v: Verdict)
    requires depth <= V.MAX_DEPTH
    modifies budget
    ensures Outcome(v, budget.State()) == AsKind(c, schema, kind, value, depth, old(budget.State()))
    decreases V.MAX_DEPTH + 1 - depth, 0, 0
  {
    v := RunValidate(c, WithType(schema, kind), value, depth + 1, budget);
  }

  ghost function AsKind(c: Context, schema: Json, kind: Json, value: Json, depth: nat, b: Budget): (r: Outcome) {
    Validate(c, WithType(schema, kind), value, depth + 1, b)
  }

  lemma {:induction false} NextKind(c: Context, schema: Json, kinds: seq<Json>, i: nat, value: Json, depth: nat, b: Budget)
    requires i < |kinds| && depth <= V.MAX_DEPTH
    ensures var o := AsKind(c, schema, kinds[i], value, depth, b);
            ProbeKinds(c, schema, kinds[i..], value, depth, b) ==
            Plus(if o.verdict == Accept then 1 else 0, ProbeKinds(c, schema, kinds[i + 1..], value, depth, o.budget))
  {
    assert kinds[i..][1..] == kinds[i + 1..];
  }

  method RunArray(c: Context, schema: Json, value: Json, depth: nat, budget: NodeBudget) returns (v: Verdict)
    requires depth <= V.MAX_DEPTH
    modifies budget
    ensures Outcome(v, budget.State()) == ValidateArray(c, schema, value, depth, old(budget.State()))
    decreases V.MAX_DEPTH + 1 - depth, 1
  {
    if !value.Array? || !ArrayAdmitted(schema, value.items) {
      return Reject;
    }
    var item := Get(schema, "items");
    if item.None? || !(item.value.Object? || item.value.Array?) {
      return Accept;
    }
    for i := 0 to |value.items|
      invariant ValidateItems(c, item.value, value.items[i..], depth, budget.State()) ==
                ValidateItems(c, item.value, value.items, depth, old(budget.State()))
    {
      assert value.items[i..][1..] == value.items[i + 1..];
      v := RunValidate(c, item.value, value.items[i], depth + 1, budget);
      if v != Accept {
        return;
      }
    }
    return Accept;
  }

  method RunObject(c: Context, schema: Json, value: Json, depth: nat, budget: NodeBudget) returns (v: Verdict)
    requires depth <= V.MAX_DEPTH
    modifies budget
    ensures Outcome(v, budget.State()) == ValidateObject(c, schema, value, depth, old(budget.State()))
    decreases V.MAX_DEPTH + 1 - depth, 1
  {
    if !value.Object? || !ObjectAdmitted(schema, value.fields) {
      return Reject;
    }
    for i := 0 to |value.fields|
      invariant ValidateFields(c, schema, value.fields[i..], depth, budget.State()) ==
                ValidateFields(c, schema, value.fields, depth, old(budget.State()))
    {
      assert value.fields[i..][1..] == value.fields[i + 1..];
      var plan := PlanField(c, schema, value.fields[i].name);
      if plan.Refuse? {
        return Reject;
      }
      v := RunAll(c, plan.schemas, value.fields[i].value, depth, budget);
      if v != Accept {
        return;
      }
    }
    return Accept;
  }

  method RunAll(c: Context, schemas: seq<Json>, value: Json, depth: nat, budget: NodeBudget) returns (v: Verdict)
    requires depth <= V.MAX_DEPTH
    modifies budget
    ensures Outcome(v, budget.State()) == ValidateAll(c, schemas, value, depth, old(budget.State()))
    decreases V.MAX_DEPTH + 1 - depth, 0
  {
    for i := 0 to |schemas|
      invariant ValidateAll(c, schemas[i..], value, depth, budget.State()) ==
                ValidateAll(c, schemas, value, depth, old(budget.State()))
    {
      assert schemas[i..][1..] == schemas[i + 1..];
      v := RunValidate(c, schemas[i], value, depth + 1, budget);
      if v != Accept {
        return;
      }
    }
    return Accept;
  }

  // ---------------------------------------------------------------- coerce

  method RunCoerce(c: Context, schema: Json, value: Json, depth: nat, budget: NodeBudget) returns (r: C.Coerced)
    modifies budget
    ensures C.Step(r, budget.nodes) == C.Coerce(c, schema, value, depth, old(budget.nodes))
    decreases V.MAX_DEPTH + 1 - depth, 3
  {
    if depth > V.MAX_DEPTH {
      return C.Invalid;
    }
    budget.nodes := budget.nodes + 1;
    if budget.nodes > V.MAX_NODES {
      return C.Invalid;
    }
    r := RunCoerceCounted(c, schema, value, depth, budget);
  }

  method RunCoerceCounted(c: Context, schema: Json, value: Json, depth: nat, budget: NodeBudget) returns (r: C.Coerced)
    requires depth <= V.MAX_DEPTH
    modifies budget
    ensures C.Step(r, budget.nodes) == C.CoerceCounted(c, schema, value, depth, old(budget.nodes))
    decreases V.MAX_DEPTH + 1 - depth, 2
  {
    if !schema.Object? && !schema.Array? {
      return C.Crashed;
    }
    if IsReference(schema) {
      var target := C.Definition(c.root, Get(schema, "$ref").value.text);
      if target.None? {
        return C.Crashed;
      }
      r := RunCoerce(c, target.value, value, depth + 1, budget);
      return;
    }
    var alternatives := Alternatives(schema);
    if alternatives.Some? {
      r := RunCoerceFirst(c, alternatives.value, value, depth, budget);
      return;
    }
    var declared := Get(schema, "type");
    if declared.Some? && declared.value.Array? {
      r := RunCoerceKinds(c, schema, declared.value.items, value, depth, budget);
    } else {
      r := RunCoerceTyped(c, schema, value, depth, budget);
    }
  }

  method RunCoerceFirst(c: Context, alternatives: seq<Json>, value: Json, depth: nat, budget: NodeBudget) returns (r: C.Coerced)
    requires depth <= V.MAX_DEPTH
    modifies budget
    ensures C.Step(r, budget.nodes) == C.CoerceFirst(c, alternatives, value, depth, old(budget.nodes))
    decreases V.MAX_DEPTH + 1 - depth, 0
  {
    for i := 0 to |alternatives|
      invariant C.CoerceFirst(c, alternatives[i..], value, depth, budget.nodes) ==
                C.CoerceFirst(c, alternatives, value, depth, old(budget.nodes))
    {
      assert alternatives[i..][1..] == alternatives[i + 1..];
      var normalized := RunCoerce(c, alternatives[i], value, depth + 1, budget);
      r := RunSettle(c, alternatives[i], normalized, depth);
      if !r.Invalid? {
        return;
      }
    }
    return C.Returned(value);
  }

  method RunCoerceKinds(c: Context, schema: Json, kinds: seq<Json>, value: Json, depth: nat, budget: NodeBudget) returns (r: C.Coerced)
    requires depth <= V.MAX_DEPTH
    modifies budget
    ensures C.Step(r, budget.nodes) == C.CoerceKinds(c, schema, kinds, value, depth, old(budget.nodes))
    decreases V.MAX_DEPTH + 1 - depth, 0
  {
    for i := 0 to |kinds|
      invariant C.CoerceKinds(c, schema, kinds[i..], value, depth, budget.nodes) ==
                C.CoerceKinds(c, schema, kinds, value, depth, old(budget.nodes))
    {
      assert kinds[i..][1..] == kinds[i + 1..];
      var candidate := WithType(schema, kinds[i]);
      var normalized := RunCoerce(c, candidate, value, depth + 1, budget);
      r := RunSettle(c, candidate, normalized, depth);
      if !r.Invalid? {
        return;
      }
    }
    return C.Returned(value);
  }

  method RunSettle(c: Context, candidate: Json, normalized: C.Coerced, depth: nat) returns (r: C.Coerced)
    requires depth <= V.MAX_DEPTH
    ensures r == C.Settle(c, candidate, normalized, depth)
  {
    if !normalized.Returned? {
      return normalized;
    }
    var probe := new NodeBudget();
    var v := RunValidate(c, candidate, normalized.value, depth + 1, probe);
    match v {
      case Accept => r := normalized;
      case Reject => r := C.Invalid;
      case Crash => r := C.Crashed;
    }
  }

  method RunCoerceTyped(c: Context, schema: Json, value: Json, depth: nat, budget: NodeBudget) returns (r: C.Coerced)
    requires depth <= V.MAX_DEPTH
    modifies budget
    ensures C.Step(r, budget.nodes) == C.CoerceTyped(c, schema, value, depth, old(budget.nodes))
    decreases V.MAX_DEPTH + 1 - depth, 1
  {
    var declared := Get(schema, "type");
    if C.Moves(schema, value) {
      return C.Returned(C.CoerceInteger(schema, value));
    }
    if declared == Some(Text("array")) && value.Array? {
      var item := Get(schema, "items");
      if item.None? {
        return C.Returned(value);
      }
      var walk := RunCoerceItems(c, item.value, value.items, depth, budget);
      r := C.Rebuild(walk, values => Array(values)).result;
    } else if (declared == Some(Text("object")) || Get(schema, "properties").Some?) && value.Object? {
      var walk := RunCoerceFields(c, schema, value.fields, depth, budget);
      r := C.Rebuild(walk, values => Object(values)).result;
    } else {
      r := C.Returned(value);
    }
  }

  method RunCoerceItems(c: Context, schema: Json, items: seq<Json>, depth: nat, budget: NodeBudget) returns (w: C.Walk<Json>)
    requires depth <= V.MAX_DEPTH
    modifies budget
    ensures w == C.CoerceItems(c, schema, items, depth, old(budget.nodes)) && budget.nodes == w.nodes
    decreases V.MAX_DEPTH + 1 - depth, 0, |items|
  {
    if items == [] {
      return C.Walked([], budget.nodes);
    }
    var first := RunCoerce(c, schema, items[0], depth + 1, budget);
    if !first.Returned? {
      return C.Stopped(first, budget.nodes);
    }
    w := RunCoerceItems(c, schema, items[1..], depth, budget);
    if w.Walked? {
      w := C.Walked([first.value] + w.values, w.nodes);
    }
  }

  method RunCoerceFields(c: Context, schema: Json, fields: seq<Field>, depth: nat, budget: NodeBudget) returns (w: C.Walk<Field>)
    requires depth <= V.MAX_DEPTH
    modifies budget
    ensures w == C.CoerceFields(c, schema, fields, depth, old(budget.nodes)) && budget.nodes == w.nodes
    decreases V.MAX_DEPTH + 1 - depth, 0, |fields|
  {
    if fields == [] {
      return C.Walked([], budget.nodes);
    }
    var child: C.Coerced;
    match C.ChooseField(c, schema, fields[0].name) {
      case PatternFailure => child := C.Invalid;
      case Unmatched => child := C.Returned(fields[0].value);
      case Chosen(chosen) => child := RunCoerce(c, chosen, fields[0].value, depth + 1, budget);
    }
    if !child.Returned? {
      return C.Stopped(child, budget.nodes);
    }
    w := RunCoerceFields(c, schema, fields[1..], depth, budget);
    if w.Walked? {
      w := C.Walked([Field(fields[0].name, child.value)] + w.values, w.nodes);
    }
  }

  // ---------------------------------------------------------------- create

  /** `create` up to its semantic checks and freezing: coerce, then validate what came out. */
  function Created(c: Context, value: Json): (r: Option<Json>) {
    match C.Coerce(c, c.root, value, 0, 0).result
    case Returned(normalized) =>
      if Validate(c, c.root, normalized, 0, Budget(0, false)).verdict == Accept then Some(normalized) else None
    case _ => None
  }

  method Create(c: Context, value: Json) returns (r: Option<Json>)
    ensures r == Created(c, value)
    ensures r.Some? ==> C.Meaning(r.value) == C.Meaning(value)
    ensures r.Some? ==> Validate(c, c.root, r.value, 0, Budget(0, false)).verdict == Accept
  {
    C.CoerceKeepsMeaning(c, c.root, value, 0, 0);
    var counting := new NodeBudget();
    var normalized := RunCoerce(c, c.root, value, 0, counting);
    if !normalized.Returned? {
      return None;
    }
    var budget := new NodeBudget();
    var v := RunValidate(c, c.root, normalized.value, 0, budget);
    r := if v == Accept then Some(normalized.value) else None;
  }

  /** A created payload can be created again, unchanged, when its model has no unions. */
  lemma {:induction false} CreateAgain(c: Context, value: Json)
    requires C.UnionFree(c.root) && Created(c, value).Some?
    ensures Created(c, Created(c, value).value) == Created(c, value)
  {
    C.TableUnionFreeOf(c.root, "$defs");
    C.CoerceIsIdempotent(c, c.root, value, 0, 0);
  }

  /** So can a payload of a union of union-free choices when the choices before the one taken refuse it. */
  lemma {:induction false} CreateUnionAgain(c: Context, value: Json)
    requires C.DefinitionsUnionFree(c.root) && A.IsUnion(c.root) && A.AllUnionFree(A.Choices(c.root))
    requires Created(c, value).Some? && A.EarlierRefuse(c, A.Choices(c.root), value, Created(c, value).value, 0, 1)
    ensures Created(c, Created(c, value).value) == Created(c, value)
  {
    A.UnionSettles(c, c.root, value, 0, 0);
  }
}

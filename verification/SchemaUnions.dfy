/** With unions `coerce` need not be idempotent: a second pass can prefer an earlier alternative. */
module SchemaUnions {
  import opened Wrappers
  import opened Json
  import opened SchemaCoercion

  // ---------------------------------------------------------------- objects with the two fields a and b

  function Pair(x: Json, y: Json): (r: Json) { Object([Field("a", x), Field("b", y)]) }

  function PairSchema(p: Json, q: Json): (r: Json) {
    Object([Field("type", Text("object")), Field("properties", Pair(p, q))])
  }

  /** No keyword decides before the type does, and the type is no list. */
  predicate Direct(schema: Json) {
    && schema.Object? && !V.IsReference(schema) && V.Alternatives(schema).None? && Get(schema, "const").None?
    && !V.KindOf(Get(schema, "type")).Union?
  }

  lemma {:induction false} ReadPairSchema(p: Json, q: Json)
    ensures Direct(PairSchema(p, q)) && Get(PairSchema(p, q), "type") == Some(Text("object"))
    ensures Get(PairSchema(p, q), "properties") == Some(Pair(p, q))
  {
    var first, second := Field("type", Text("object")), Field("properties", Pair(p, q));
    assert "type"[0] == 't' && "properties"[0] == 'p' && "$ref"[0] == '$' && "oneOf"[0] == 'o' && "anyOf"[0] == 'a' && "const"[0] == 'c';
    LookupTwo(first, second, "type");
    LookupTwo(first, second, "properties");
    LookupTwo(first, second, "$ref");
    LookupTwo(first, second, "oneOf");
    LookupTwo(first, second, "anyOf");
    LookupTwo(first, second, "const");
  }

  lemma {:induction false} ReadAdmission(p: Json, q: Json)
    ensures Get(PairSchema(p, q), "required").None? && Get(PairSchema(p, q), "minProperties").None?
    ensures Get(PairSchema(p, q), "maxProperties").None?
  {
    var first, second := Field("type", Text("object")), Field("properties", Pair(p, q));
    assert "type"[0] == 't' && "properties"[0] == 'p' && "required"[0] == 'r' && "minProperties"[0] == 'm' && "maxProperties"[0] == 'm';
    LookupTwo(first, second, "required");
    LookupTwo(first, second, "minProperties");
    LookupTwo(first, second, "maxProperties");
  }

  lemma {:induction false} ReadPair(p: Json, q: Json)
    ensures Lookup([Field("a", p), Field("b", q)], "a") == Some(p) && Lookup([Field("a", p), Field("b", q)], "b") == Some(q)
  {
    assert "a"[0] == 'a' && "b"[0] == 'b';
    LookupTwo(Field("a", p), Field("b", q), "a");
    LookupTwo(Field("a", p), Field("b", q), "b");
  }

  /** Coercing the two fields one after the other. */
  lemma {:induction false} CoercePairFields(c: V.Context, p: Json, q: Json, x: Json, y: Json, x': Json, y': Json, depth: nat, nodes: nat)
    requires depth <= MAX_DEPTH && p.Object? && q.Object?
    requires Coerce(c, p, x, depth + 1, nodes) == Step(Returned(x'), nodes + 1)
    requires Coerce(c, q, y, depth + 1, nodes + 1) == Step(Returned(y'), nodes + 2)
    ensures CoerceFields(c, PairSchema(p, q), [Field("a", x), Field("b", y)], depth, nodes) == Walked([Field("a", x'), Field("b", y')], nodes + 2)
  {
    var schema, fields := PairSchema(p, q), [Field("a", x), Field("b", y)];
    ReadPairSchema(p, q);
    ReadPair(p, q);
    assert CoerceField(c, schema, fields[0], depth, nodes) == Step(Returned(x'), nodes + 1);
    assert CoerceField(c, schema, fields[1], depth, nodes + 1) == Step(Returned(y'), nodes + 2);
    assert fields[1..] == [fields[1]] && [fields[1]][1..] == [];
    assert CoerceFields(c, schema, [], depth, nodes + 2) == Walked([], nodes + 2);
    assert CoerceFields(c, schema, [fields[1]], depth, nodes + 1) == Walked([Field("b", y')], nodes + 2);
  }

  lemma {:induction false} CoercePair(c: V.Context, p: Json, q: Json, x: Json, y: Json, x': Json, y': Json, depth: nat, nodes: nat)
    requires depth <= MAX_DEPTH && nodes + 1 <= MAX_NODES && p.Object? && q.Object?
    requires Coerce(c, p, x, depth + 1, nodes + 1) == Step(Returned(x'), nodes + 2)
    requires Coerce(c, q, y, depth + 1, nodes + 2) == Step(Returned(y'), nodes + 3)
    ensures Coerce(c, PairSchema(p, q), Pair(x, y), depth, nodes) == Step(Returned(Pair(x', y')), nodes + 3)
  {
    var schema := PairSchema(p, q);
    CoercePairFields(c, p, q, x, y, x', y', depth, nodes + 1);
    ReadPairSchema(p, q);
    CountedIsTyped(c, schema, Pair(x, y), depth, nodes + 1);
    assert "object"[0] == 'o' && "integer"[0] == 'i' && "array"[0] == 'a';
    assert CoerceTyped(c, schema, Pair(x, y), depth, nodes + 1) == Step(Returned(Pair(x', y')), nodes + 3);
  }

  /** An object is accepted when both fields are, and not when the first is not. */
  lemma {:induction false} ValidatePairFields(c: V.Context, p: Json, q: Json, x: Json, y: Json, depth: nat, b: V.Budget)
    requires depth <= MAX_DEPTH
    ensures var first := V.Validate(c, p, x, depth + 1, b);
            var second := V.Validate(c, q, y, depth + 1, first.budget);
            V.ValidateFields(c, PairSchema(p, q), [Field("a", x), Field("b", y)], depth, b).verdict ==
            if first.verdict != V.Accept then first.verdict else second.verdict
  {
    var schema, fields := PairSchema(p, q), [Field("a", x), Field("b", y)];
    PlanPair(c, p, q);
    var first := V.Validate(c, p, x, depth + 1, b);
    var second := V.Validate(c, q, y, depth + 1, first.budget);
    assert fields[1..] == [fields[1]] && [fields[1]][1..] == [];
    OneSchema(c, p, x, depth, b);
    OneSchema(c, q, y, depth, first.budget);
    assert V.ValidateFields(c, schema, [], depth, second.budget).verdict == V.Accept;
    assert V.ValidateFields(c, schema, [fields[1]], depth, first.budget).verdict == second.verdict;
  }

  lemma {:induction false} ValidatePair(c: V.Context, p: Json, q: Json, x: Json, y: Json, depth: nat, nodes: nat)
    requires depth <= MAX_DEPTH && nodes + 1 <= MAX_NODES
    ensures var first := V.Validate(c, p, x, depth + 1, V.Budget(nodes + 1, false));
            var second := V.Validate(c, q, y, depth + 1, first.budget);
            V.Validate(c, PairSchema(p, q), Pair(x, y), depth, V.Budget(nodes, false)).verdict ==
            if first.verdict != V.Accept then first.verdict else second.verdict
  {
    var b := V.Budget(nodes + 1, false);
    ValidatePairFields(c, p, q, x, y, depth, b);
    PairIsFields(c, p, q, x, y, depth, b);
    CountsOne(c, PairSchema(p, q), Pair(x, y), depth, nodes);
  }

  lemma {:induction false} CountsOne(c: V.Context, schema: Json, value: Json, depth: nat, nodes: nat)
    requires depth <= MAX_DEPTH && nodes + 1 <= MAX_NODES
    ensures V.Validate(c, schema, value, depth, V.Budget(nodes, false)) == V.ValidateCounted(c, schema, value, depth, V.Budget(nodes + 1, false))
  {
  }

  lemma {:induction false} PairIsFields(c: V.Context, p: Json, q: Json, x: Json, y: Json, depth: nat, b: V.Budget)
    requires depth <= MAX_DEPTH
    ensures V.ValidateCounted(c, PairSchema(p, q), Pair(x, y), depth, b) ==
            V.ValidateFields(c, PairSchema(p, q), [Field("a", x), Field("b", y)], depth, b)
  {
    var schema, fields := PairSchema(p, q), [Field("a", x), Field("b", y)];
    ReadPairSchema(p, q);
    ReadAdmission(p, q);
    assert V.KindOf(Get(schema, "type")) == V.ObjectKind by {
      assert "object"[0] == 'o' && "null"[0] == 'n' && "string"[0] == 's' && "integer"[0] == 'i' && "number"[0] == 'n';
      assert "boolean"[0] == 'b' && "array"[0] == 'a';
    }
    assert V.ObjectAdmitted(schema, fields);
    assert V.ValidateType(c, schema, Pair(x, y), depth, b) == V.ValidateObject(c, schema, Pair(x, y), depth, b);
  }

  lemma {:induction false} OneSchema(c: V.Context, schema: Json, value: Json, depth: nat, b: V.Budget)
    requires depth <= MAX_DEPTH
    ensures V.ValidateAll(c, [schema], value, depth, b) == V.Validate(c, schema, value, depth + 1, b)
  {
    assert [schema][1..] == [];
    assert V.ValidateAll(c, [], value, depth, V.Validate(c, schema, value, depth + 1, b).budget).verdict == V.Accept;
  }

  lemma {:induction false} PlanPair(c: V.Context, p: Json, q: Json)
    ensures V.PlanField(c, PairSchema(p, q), "a") == V.Check([p]) && V.PlanField(c, PairSchema(p, q), "b") == V.Check([q])
  {
    ReadPairSchema(p, q);
    ReadPair(p, q);
  }

  // ---------------------------------------------------------------- the leaves

  function Leaf(kind: string, format: string): (r: Json) { Object([Field("type", Text(kind)), Field("format", Text(format))]) }

  lemma {:induction false} ReadLeaf(kind: string, format: string)
    ensures Direct(Leaf(kind, format)) && Get(Leaf(kind, format), "type") == Some(Text(kind))
    ensures Get(Leaf(kind, format), "format") == Some(Text(format))
  {
    var first, second := Field("type", Text(kind)), Field("format", Text(format));
    assert "type"[0] == 't' && "format"[0] == 'f' && "$ref"[0] == '$' && "oneOf"[0] == 'o' && "anyOf"[0] == 'a' && "const"[0] == 'c';
    LookupTwo(first, second, "type");
    LookupTwo(first, second, "format");
    LookupTwo(first, second, "$ref");
    LookupTwo(first, second, "oneOf");
    LookupTwo(first, second, "anyOf");
    LookupTwo(first, second, "const");
  }

  lemma {:induction false} ReadLeafBounds(kind: string, format: string)
    ensures Get(Leaf(kind, format), "minimum").None? && Get(Leaf(kind, format), "maximum").None?
    ensures Get(Leaf(kind, format), "properties").None?
  {
    var first, second := Field("type", Text(kind)), Field("format", Text(format));
    assert "type"[0] == 't' && "format"[0] == 'f' && "minimum"[0] == 'm' && "maximum"[0] == 'm' && "properties"[0] == 'p';
    LookupTwo(first, second, "minimum");
    LookupTwo(first, second, "maximum");
    LookupTwo(first, second, "properties");
  }

  const WIDE: Json := Leaf("integer", "int64")
  const WIDE_NUMBER: Json := Leaf("number", "int64")
  const NARROW: Json := Leaf("integer", "int32")
  const ANY: Json := Object([])

  lemma {:induction false} Widths()
    ensures V.IsWide(WIDE) && V.IsWide(WIDE_NUMBER) && !V.IsWide(NARROW)
  {
    ReadLeaf("integer", "int64");
    ReadLeaf("number", "int64");
    ReadLeaf("integer", "int32");
    assert "int64"[3] == '6' && "int32"[3] == '3' && "uint64"[0] == 'u' && "int32"[0] == 'i';
  }

  /** Only the type `integer` moves a number. */
  lemma {:induction false} CoerceLeaf(c: V.Context, kind: string, format: string, value: Json, depth: nat, nodes: nat)
    requires kind == "integer" || kind == "number"
    requires (value.Number? || value.BigInt?) && depth <= MAX_DEPTH && nodes + 1 <= MAX_NODES
    ensures Coerce(c, Leaf(kind, format), value, depth, nodes) ==
            Step(Returned(if kind == "integer" then CoerceInteger(Leaf(kind, format), value) else value), nodes + 1)
  {
    ReadLeaf(kind, format);
    assert "integer"[0] == 'i' && "number"[0] == 'n';
    var moved := if kind == "integer" then CoerceInteger(Leaf(kind, format), value) else value;
    CountedIsTyped(c, Leaf(kind, format), value, depth, nodes + 1);
    assert CoerceTyped(c, Leaf(kind, format), value, depth, nodes + 1) == Step(Returned(moved), nodes + 1);
  }

  lemma {:induction false} ValidateLeaf(c: V.Context, kind: string, format: string, value: Json, depth: nat, b: V.Budget)
    requires kind == "integer" || kind == "number"
    requires depth <= MAX_DEPTH && b.nodes + 1 <= MAX_NODES
    ensures V.Validate(c, Leaf(kind, format), value, depth, b) ==
            V.Outcome(if (if V.IsWide(Leaf(kind, format)) then value.BigInt? else value.Number? && V.IsSafeInteger(value.number))
                      then V.Accept else V.Reject, V.Budget(b.nodes + 1, b.hit))
  {
    var schema, counted := Leaf(kind, format), V.Budget(b.nodes + 1, b.hit);
    ReadLeaf(kind, format);
    ReadLeafBounds(kind, format);
    assert "integer"[0] == 'i' && "number"[0] == 'n' && "null"[1] == 'u' && "string"[0] == 's';
    assert |"number"| == 6 && |"null"| == 4;
    assert V.KindOf(Get(schema, "type")) == V.NumberKind;
    assert V.ValidateType(c, schema, value, depth, counted) == V.Outcome(V.IntegerVerdict(schema, value), counted);
    assert V.ValidateCounted(c, schema, value, depth, counted) == V.Outcome(V.IntegerVerdict(schema, value), counted);
  }

  lemma {:induction false} AnyKeeps(c: V.Context, value: Json, depth: nat, nodes: nat)
    requires (value.Number? || value.BigInt?) && depth <= MAX_DEPTH && nodes + 1 <= MAX_NODES
    ensures Coerce(c, ANY, value, depth, nodes) == Step(Returned(value), nodes + 1)
  {
    CountedIsTyped(c, ANY, value, depth, nodes + 1);
    assert CoerceTyped(c, ANY, value, depth, nodes + 1) == Step(Returned(value), nodes + 1);
  }

  lemma {:induction false} AnyAccepts(c: V.Context, value: Json, depth: nat, b: V.Budget)
    requires depth <= MAX_DEPTH && b.nodes + 1 <= MAX_NODES
    ensures V.Validate(c, ANY, value, depth, b).verdict == V.Accept
  {
    var counted := V.Budget(b.nodes + 1, b.hit);
    assert V.ValidateType(c, ANY, value, depth, counted).verdict == V.Accept;
    assert V.ValidateCounted(c, ANY, value, depth, counted).verdict == V.Accept;
  }

  // ---------------------------------------------------------------- two alternatives

  const EARLIER: Json := PairSchema(WIDE_NUMBER, NARROW)
  const LATER: Json := PairSchema(WIDE, ANY)
  const EITHER: Json := Object([Field("anyOf", Array([EARLIER, LATER]))])

  predicate Safe(i: int) { -V.MAX_SAFE <= i <= V.MAX_SAFE }

  lemma {:induction false} SafeReal(i: int)
    requires Safe(i)
    ensures V.IsSafeInteger(i as real) && (i as real).Floor == i
  {
  }

  /** The earlier alternative keeps the first number as it is and narrows the second. */
  lemma {:induction false} EarlierCoerces(c: V.Context, x: Json, j: int, depth: nat, nodes: nat)
    requires (x.Number? || x.BigInt?) && Safe(j) && depth < MAX_DEPTH && nodes + 3 <= MAX_NODES
    ensures Coerce(c, EARLIER, Pair(x, BigInt(j)), depth, nodes) == Step(Returned(Pair(x, Number(j as real))), nodes + 3)
  {
    Widths();
    CoerceLeaf(c, "number", "int64", x, depth + 1, nodes + 1);
    CoerceLeaf(c, "integer", "int32", BigInt(j), depth + 1, nodes + 2);
    assert CoerceInteger(NARROW, BigInt(j)) == Number(j as real);
    CoercePair(c, WIDE_NUMBER, NARROW, x, BigInt(j), x, Number(j as real), depth, nodes);
  }

  /** It then accepts the result exactly when the first number was a bigint. */
  lemma {:induction false} EarlierAccepts(c: V.Context, x: Json, j: int, depth: nat, nodes: nat)
    requires (x.Number? || x.BigInt?) && Safe(j) && depth < MAX_DEPTH && nodes + 3 <= MAX_NODES
    ensures V.Validate(c, EARLIER, Pair(x, Number(j as real)), depth, V.Budget(nodes, false)).verdict == if x.BigInt? then V.Accept else V.Reject
  {
    Widths();
    SafeReal(j);
    ValidateLeaf(c, "number", "int64", x, depth + 1, V.Budget(nodes + 1, false));
    ValidateLeaf(c, "integer", "int32", Number(j as real), depth + 1, V.Budget(nodes + 2, false));
    ValidatePair(c, WIDE_NUMBER, NARROW, x, Number(j as real), depth, nodes);
  }

  lemma {:induction false} LaterCoerces(c: V.Context, i: int, j: int, depth: nat, nodes: nat)
    requires Safe(i) && depth < MAX_DEPTH && nodes + 3 <= MAX_NODES
    ensures Coerce(c, LATER, Pair(Number(i as real), BigInt(j)), depth, nodes) == Step(Returned(Pair(BigInt(i), BigInt(j))), nodes + 3)
  {
    Widths();
    SafeReal(i);
    CoerceLeaf(c, "integer", "int64", Number(i as real), depth + 1, nodes + 1);
    assert CoerceInteger(WIDE, Number(i as real)) == BigInt(i);
    AnyKeeps(c, BigInt(j), depth + 1, nodes + 2);
    CoercePair(c, WIDE, ANY, Number(i as real), BigInt(j), BigInt(i), BigInt(j), depth, nodes);
  }

  lemma {:induction false} LaterAccepts(c: V.Context, i: int, j: int, depth: nat, nodes: nat)
    requires depth < MAX_DEPTH && nodes + 3 <= MAX_NODES
    ensures V.Validate(c, LATER, Pair(BigInt(i), BigInt(j)), depth, V.Budget(nodes, false)).verdict == V.Accept
  {
    Widths();
    AnyAccepts(c, BigInt(j), depth + 1, V.Budget(nodes + 2, false));
    ValidateLeaf(c, "integer", "int64", BigInt(i), depth + 1, V.Budget(nodes + 1, false));
    ValidatePair(c, WIDE, ANY, BigInt(i), BigInt(j), depth, nodes);
  }

  lemma {:induction false} ReadEither()
    ensures !V.IsReference(EITHER) && V.Alternatives(EITHER) == Some([EARLIER, LATER])
  {
    var only := EITHER.fields[0];
    assert "anyOf"[0] == 'a' && "oneOf"[0] == 'o' && "$ref"[0] == '$';
    assert EITHER.fields[1..] == [];
    assert forall name :: Lookup(EITHER.fields, name) == if name == "anyOf" then Some(only.value) else None;
  }

  lemma {:induction false} CoerceEither(c: V.Context, value: Json, depth: nat, nodes: nat)
    requires depth <= MAX_DEPTH && nodes + 1 <= MAX_NODES
    ensures Coerce(c, EITHER, value, depth, nodes) == CoerceFirst(c, [EARLIER, LATER], value, depth, nodes + 1)
  {
    ReadEither();
    assert CoerceCounted(c, EITHER, value, depth, nodes + 1) == CoerceFirst(c, [EARLIER, LATER], value, depth, nodes + 1);
  }

  lemma {:induction false} EarlierSettles(c: V.Context, x: Json, j: int, depth: nat)
    requires (x.Number? || x.BigInt?) && Safe(j) && depth + 1 < MAX_DEPTH
    ensures Settle(c, EARLIER, Returned(Pair(x, Number(j as real))), depth) ==
            if x.BigInt? then Returned(Pair(x, Number(j as real))) else Invalid
  {
    EarlierAccepts(c, x, j, depth + 1, 0);
  }

  lemma {:induction false} LaterSettles(c: V.Context, i: int, j: int, depth: nat)
    requires depth + 1 < MAX_DEPTH
    ensures Settle(c, LATER, Returned(Pair(BigInt(i), BigInt(j))), depth) == Returned(Pair(BigInt(i), BigInt(j)))
  {
    LaterAccepts(c, i, j, depth + 1, 0);
  }

  /** One alternative settles the matter, or the rest decides. */
  lemma {:induction false} FirstOf(c: V.Context, alternative: Json, rest: seq<Json>, value: Json, s: Step, settled: Coerced, depth: nat, nodes: nat)
    requires depth <= MAX_DEPTH && s == Coerce(c, alternative, value, depth + 1, nodes) && settled == Settle(c, alternative, s.result, depth)
    ensures CoerceFirst(c, [alternative] + rest, value, depth, nodes) ==
            if settled.Invalid? then CoerceFirst(c, rest, value, depth, s.nodes) else Step(settled, s.nodes)
  {
    assert ([alternative] + rest)[1..] == rest;
  }

  lemma {:induction false} FirstPass(c: V.Context, i: int, j: int, depth: nat, nodes: nat)
    requires Safe(i) && Safe(j) && depth + 1 < MAX_DEPTH && nodes + 7 <= MAX_NODES
    ensures Coerce(c, EITHER, Pair(Number(i as real), BigInt(j)), depth, nodes) == Step(Returned(Pair(BigInt(i), BigInt(j))), nodes + 7)
  {
    var x, value, result := Number(i as real), Pair(Number(i as real), BigInt(j)), Pair(BigInt(i), BigInt(j));
    CoerceEither(c, value, depth, nodes);
    EarlierCoerces(c, x, j, depth + 1, nodes + 1);
    EarlierSettles(c, x, j, depth);
    FirstOf(c, EARLIER, [LATER], value, Step(Returned(Pair(x, Number(j as real))), nodes + 4), Invalid, depth, nodes + 1);
    assert [EARLIER] + [LATER] == [EARLIER, LATER];
    LaterCoerces(c, i, j, depth + 1, nodes + 4);
    LaterSettles(c, i, j, depth);
    FirstOf(c, LATER, [], value, Step(Returned(result), nodes + 7), Returned(result), depth, nodes + 4);
    assert [LATER] + [] == [LATER];
  }

  lemma {:induction false} SecondPass(c: V.Context, i: int, j: int, depth: nat, nodes: nat)
    requires Safe(j) && depth + 1 < MAX_DEPTH && nodes + 4 <= MAX_NODES
    ensures Coerce(c, EITHER, Pair(BigInt(i), BigInt(j)), depth, nodes) == Step(Returned(Pair(BigInt(i), Number(j as real))), nodes + 4)
  {
    var value, result := Pair(BigInt(i), BigInt(j)), Pair(BigInt(i), Number(j as real));
    CoerceEither(c, value, depth, nodes);
    EarlierCoerces(c, BigInt(i), j, depth + 1, nodes + 1);
    EarlierSettles(c, BigInt(i), j, depth);
    FirstOf(c, EARLIER, [LATER], value, Step(Returned(result), nodes + 4), Returned(result), depth, nodes + 1);
    assert [EARLIER] + [LATER] == [EARLIER, LATER];
  }

  /** For all safe integers: the first pass takes the later alternative, and its result then fits the earlier one. */
  lemma {:induction false} UnionsAreNotIdempotent(c: V.Context, i: int, j: int, depth: nat, nodes: nat)
    requires Safe(i) && Safe(j) && depth + 1 < MAX_DEPTH && nodes + 7 <= MAX_NODES
    ensures var s := Coerce(c, EITHER, Pair(Number(i as real), BigInt(j)), depth, nodes);
            s.result.Returned? && !Settled(Coerce(c, EITHER, s.result.value, depth, nodes), s)
  {
    FirstPass(c, i, j, depth, nodes);
    SecondPass(c, i, j, depth, nodes);
    assert Pair(BigInt(i), BigInt(j)).fields[1].value != Pair(BigInt(i), Number(j as real)).fields[1].value;
  }
}

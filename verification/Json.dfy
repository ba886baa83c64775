/** JSON-like values as the generated client runtime sees them; object fields are in enumeration order. */
module Json {
  import opened Wrappers

  datatype Json =
    | Null
    | Bool(truth: bool)
    | Number(number: real)
    | BigInt(integer: int)
    | Text(text: string)
    | Array(items: seq<Json>)
    | Object(fields: seq<Field>)

  datatype Field = Field(name: string, value: Json)

  function Lookup(fields: seq<Field>, name: string): (r: Option<Json>) {
    if fields == [] then None
    else if fields[0].name == name then Some(fields[0].value)
    else Lookup(fields[1..], name)
  }

  /** Property access; arrays have none of the names used here. */
  function Get(j: Json, name: string): (r: Option<Json>) {
    if j.Object? then Lookup(j.fields, name) else None
  }

  /** `{ ...object, [name]: value }` */
  function SetField(fields: seq<Field>, name: string, value: Json): (r: seq<Field>) {
    if fields == [] then [Field(name, value)]
    else if fields[0].name == name then [Field(name, value)] + fields[1..]
    else [fields[0]] + SetField(fields[1..], name, value)
  }

  lemma {:induction false} LookupSetField(fields: seq<Field>, name: string, value: Json, other: string)
    ensures Lookup(SetField(fields, name, value), other) == if other == name then Some(value) else Lookup(fields, other)
  {
    if fields != [] {
      LookupSetField(fields[1..], name, value, other);
      assert SetField(fields, name, value)[1..] ==
        if fields[0].name == name then fields[1..] else SetField(fields[1..], name, value);
    }
  }

  lemma {:induction false} LookupTwo(first: Field, second: Field, name: string)
    ensures Lookup([first, second], name) ==
      if first.name == name then Some(first.value) else if second.name == name then Some(second.value) else None
    ensures Lookup([first], name) == if first.name == name then Some(first.value) else None
  {
    assert [first, second][1..] == [second];
    assert [second][1..] == [] && [first][1..] == [];
    assert Lookup([second], name) == if second.name == name then Some(second.value) else None;
  }

  lemma {:induction false} SetFieldSame(fields: seq<Field>, name: string, value: Json)
    requires Lookup(fields, name) == Some(value)
    ensures SetField(fields, name, value) == fields
  {
    if fields[0].name != name {
      SetFieldSame(fields[1..], name, value);
    }
    assert fields == [fields[0]] + fields[1..];
  }

  /** No null anywhere: the shape of what travels on the wire. */
  predicate NullFree(j: Json)
    decreases j, 0
  {
    match j
    case Null => false
    case Array(items) => ItemsNullFree(items)
    case Object(fields) => FieldsNullFree(fields)
    case _ => true
  }

  predicate ItemsNullFree(items: seq<Json>)
    decreases items, 0
  {
    items == [] || (NullFree(items[0]) && ItemsNullFree(items[1..]))
  }

  predicate FieldsNullFree(fields: seq<Field>)
    decreases fields, 0
  {
    fields == [] || (FieldNullFree(fields[0]) && FieldsNullFree(fields[1..]))
  }

  predicate FieldNullFree(field: Field)
    decreases field, 0
  {
    NullFree(field.value)
  }
}

/**
  The deterministic CBOR profile of the recorded API: the encoder of
  demos/driver_support.py and its meaning as a function of the value.

  Unicode NFC is a parameter `nfc` of every definition; no law of it is needed
  except where a lemma says so.
  */
module Cbor {
  import opened Wrappers
  import opened Bytes
  import opened Sequences

  type Nfc = string -> string

  datatype Key = TextKey(name: string) | OtherKey
  datatype Entry = Entry(key: Key, child: Value)

  /** A Python value as the encoder tells values apart; a dictionary lists its items in insertion order. */
  datatype Value =
    | Bool(truth: bool)
    | Int(number: int)
    | Text(text: string)
    | List(items: seq<Value>)
    | Map(entries: seq<Entry>)
    | Unsupported

  datatype Failure = BoundsExceeded | BelowI64 | ArgumentTooLarge | KeyNotText | NotCanonical
  datatype Result = Encoded(bytes: ByteString) | Failed(failure: Failure)

  const MIN_INT: int := -0x8000_0000_0000_0000
  const MAX_ARGUMENT: nat := 0xFFFF_FFFF_FFFF_FFFF
  const MAX_DEPTH: nat := 64
  const MAX_NODES: nat := 100_000

  type Major = m: nat | m < 8

  // ---------------------------------------------------------------- meaning of the encoder

  /** Initial byte and argument; `major << 5 | low` is written as arithmetic. */
  function Head(major: Major, argument: nat): (r: ByteString)
    ensures r != []
  {
    if argument < 24 then [32 * major + argument]
    else if argument <= 0xFF then [32 * major + 24] + BigEndian(argument, 1)
    else if argument <= 0xFFFF then [32 * major + 25] + BigEndian(argument, 2)
    else if argument <= 0xFFFF_FFFF then [32 * major + 26] + BigEndian(argument, 4)
    else [32 * major + 27] + BigEndian(argument, 8)
  }

  predicate TextFits(nfc: Nfc, s: string) {
    |Utf8(nfc(s))| <= MAX_ARGUMENT
  }

  function TextBytes(nfc: Nfc, s: string): (r: ByteString) {
    Head(3, |Utf8(nfc(s))|) + Utf8(nfc(s))
  }

  /** Keys are normalised by the dictionary branch and once more by the text branch. */
  function KeyBytes(nfc: Nfc, key: Key): (r: ByteString) {
    if key.TextKey? then TextBytes(nfc, nfc(key.name)) else []
  }

  /** The bytes written for a supported value. */
  function Encode(nfc: Nfc, v: Value): (r: ByteString)
    decreases v, 0
  {
    match v
    case Bool(b) => if b then [0xf5] else [0xf4]
    case Int(i) => if i >= 0 then Head(0, i) else Head(1, -1 - i)
    case Text(s) => TextBytes(nfc, s)
    case List(items) => Head(4, |items|) + EncodeItems(nfc, items)
    case Map(entries) => Head(5, |entries|) + Join(Sort(EntryParts(nfc, entries)))
    case Unsupported => []
  }

  function EncodeItems(nfc: Nfc, vs: seq<Value>): (r: ByteString)
    decreases vs, 0
  {
    if vs == [] then [] else Encode(nfc, vs[0]) + EncodeItems(nfc, vs[1..])
  }

  function EntryParts(nfc: Nfc, entries: seq<Entry>): (r: seq<Keyed<ByteString>>)
    ensures |r| == |entries|
    decreases entries, 0
  {
    if entries == [] then [] else [EntryPart(nfc, entries[0])] + EntryParts(nfc, entries[1..])
  }

  function EntryPart(nfc: Nfc, entry: Entry): (r: Keyed<ByteString>)
    decreases entry, 0
  {
    Keyed(KeyBytes(nfc, entry.key), Encode(nfc, entry.child))
  }

  /** Each key followed by what it carries. */
  function Join(parts: seq<Keyed<ByteString>>): (r: ByteString) {
    if parts == [] then [] else parts[0].key + parts[0].item + Join(parts[1..])
  }

  // ---------------------------------------------------------------- what is accepted

  /** What the encoder can represent, bounds on size and nesting aside. */
  predicate Supported(nfc: Nfc, v: Value)
    decreases v, 0
  {
    match v
    case Bool(_) => true
    case Int(i) => MIN_INT <= i <= MAX_ARGUMENT
    case Text(s) => TextFits(nfc, s)
    case List(items) => |items| <= MAX_ARGUMENT && ItemsSupported(nfc, items)
    case Map(entries) => |entries| <= MAX_ARGUMENT && EntriesSupported(nfc, entries)
    case Unsupported => false
  }

  predicate ItemsSupported(nfc: Nfc, vs: seq<Value>)
    decreases vs, 0
  {
    vs == [] || (Supported(nfc, vs[0]) && ItemsSupported(nfc, vs[1..]))
  }

  predicate EntriesSupported(nfc: Nfc, entries: seq<Entry>)
    decreases entries, 0
  {
    entries == [] || (EntrySupported(nfc, entries[0]) && EntriesSupported(nfc, entries[1..]))
  }

  predicate EntrySupported(nfc: Nfc, entry: Entry)
    decreases entry, 0
  {
    KeySupported(nfc, entry.key) && Supported(nfc, entry.child)
  }

  predicate KeySupported(nfc: Nfc, key: Key) {
    key.TextKey? && TextFits(nfc, nfc(key.name))
  }

  /** A value nests within `levels` further levels; a dictionary key takes a level of its own. */
  predicate NestsWithin(v: Value, levels: int)
    decreases v, 0
  {
    levels >= 0 &&
    match v
    case List(items) => ItemsNest(items, levels - 1)
    case Map(entries) => EntriesNest(entries, levels - 1)
    case _ => true
  }

  predicate ItemsNest(vs: seq<Value>, levels: int)
    decreases vs, 0
  {
    vs == [] || (NestsWithin(vs[0], levels) && ItemsNest(vs[1..], levels))
  }

  predicate EntriesNest(entries: seq<Entry>, levels: int)
    decreases entries, 0
  {
    entries == [] || (EntryNests(entries[0], levels) && EntriesNest(entries[1..], levels))
  }

  predicate EntryNests(entry: Entry, levels: int)
    decreases entry, 0
  {
    levels >= 0 && NestsWithin(entry.child, levels)
  }

  /** Values plus dictionary keys. */
  function Nodes(v: Value): (r: nat)
    ensures r >= 1
    decreases v, 0
  {
    match v
    case List(items) => 1 + NodesOf(items)
    case Map(entries) => 1 + |entries| + ChildNodes(entries)
    case _ => 1
  }

  function NodesOf(vs: seq<Value>): (r: nat)
    decreases vs, 0
  {
    if vs == [] then 0 else Nodes(vs[0]) + NodesOf(vs[1..])
  }

  function ChildNodes(entries: seq<Entry>): (r: nat)
    decreases entries, 0
  {
    if entries == [] then 0 else EntryNodes(entries[0]) + ChildNodes(entries[1..])
  }

  function EntryNodes(entry: Entry): (r: nat)
    decreases entry, 0
  {
    Nodes(entry.child)
  }

  predicate Acceptable(nfc: Nfc, v: Value, levels: int) {
    Supported(nfc, v) && NestsWithin(v, levels)
  }

  /** The whole acceptance condition of the encoder, entered at `depth` with `spent` nodes counted. */
  predicate Accepts(nfc: Nfc, v: Value, depth: nat, spent: nat) {
    Acceptable(nfc, v, MAX_DEPTH - depth) && spent + Nodes(v) <= MAX_NODES
  }

  /** The values can be encoded one after the other, starting with `spent` nodes counted. */
  predicate Fits(nfc: Nfc, vs: seq<Value>, levels: int, spent: nat) {
    spent <= MAX_NODES &&
    (vs == [] ||
     (Acceptable(nfc, vs[0], levels) && Fits(nfc, vs[1..], levels, spent + Nodes(vs[0]))))
  }

  lemma {:induction false} FitsMeaning(nfc: Nfc, vs: seq<Value>, levels: int, spent: nat)
    ensures Fits(nfc, vs, levels, spent) <==>
            ItemsSupported(nfc, vs) && ItemsNest(vs, levels) && spent + NodesOf(vs) <= MAX_NODES
  {
    if vs != [] {
      FitsMeaning(nfc, vs[1..], levels, spent + Nodes(vs[0]));
    }
  }

  // ---------------------------------------------------------------- entries, keyed

  function KeyedChildren(nfc: Nfc, entries: seq<Entry>): (r: seq<Keyed<Value>>)
    ensures |r| == |entries|
  {
    if entries == [] then [] else
      [Keyed(KeyBytes(nfc, entries[0].key), entries[0].child)] + KeyedChildren(nfc, entries[1..])
  }

  function Items<T>(xs: seq<Keyed<T>>): (r: seq<T>)
    ensures |r| == |xs|
  {
    if xs == [] then [] else [xs[0].item] + Items(xs[1..])
  }

  lemma {:induction false} ChildrenOfEntries(nfc: Nfc, entries: seq<Entry>, levels: int)
    requires entries == [] || levels >= 0
    requires forall i :: 0 <= i < |entries| ==> KeySupported(nfc, entries[i].key)
    ensures var vs := Items(KeyedChildren(nfc, entries));
            && (ItemsSupported(nfc, vs) <==> EntriesSupported(nfc, entries))
            && (ItemsNest(vs, levels) <==> EntriesNest(entries, levels))
            && NodesOf(vs) == ChildNodes(entries)
  {
    if entries != [] {
      ChildrenOfEntries(nfc, entries[1..], levels);
      assert Items(KeyedChildren(nfc, entries))[1..] == Items(KeyedChildren(nfc, entries[1..])) by {
        assert KeyedChildren(nfc, entries)[1..] == KeyedChildren(nfc, entries[1..]);
      }
    }
  }

  lemma {:induction false} EntryPartsAreEncodedChildren(nfc: Nfc, entries: seq<Entry>)
    ensures EntryParts(nfc, entries) == MapItems(v => Encode(nfc, v), KeyedChildren(nfc, entries))
  {
    if entries != [] {
      EntryPartsAreEncodedChildren(nfc, entries[1..]);
      assert KeyedChildren(nfc, entries)[1..] == KeyedChildren(nfc, entries[1..]);
    }
  }

  lemma {:induction false} InsertedChild(nfc: Nfc, x: Keyed<Value>, xs: seq<Keyed<Value>>, levels: int)
    ensures var vs := Items(Insert(x, xs));
            && (ItemsSupported(nfc, vs) <==> Supported(nfc, x.item) && ItemsSupported(nfc, Items(xs)))
            && (ItemsNest(vs, levels) <==> NestsWithin(x.item, levels) && ItemsNest(Items(xs), levels))
            && NodesOf(vs) == Nodes(x.item) + NodesOf(Items(xs))
  {
    var r := Insert(x, xs);
    assert Items(r)[1..] == Items(r[1..]);
    if xs == [] || !Less(xs[0].key, x.key) {
      assert r[1..] == xs;
    } else {
      InsertedChild(nfc, x, xs[1..], levels);
      assert r[1..] == Insert(x, xs[1..]);
      assert Items(xs)[1..] == Items(xs[1..]);
    }
  }

  /** Sorting the children changes neither what is accepted nor what is counted. */
  lemma {:induction false} SortedChildren(nfc: Nfc, xs: seq<Keyed<Value>>, levels: int)
    ensures var vs, sorted := Items(xs), Items(Sort(xs));
            && (ItemsSupported(nfc, sorted) <==> ItemsSupported(nfc, vs))
            && (ItemsNest(sorted, levels) <==> ItemsNest(vs, levels))
            && NodesOf(sorted) == NodesOf(vs)
  {
    if xs != [] {
      SortedChildren(nfc, xs[1..], levels);
      InsertedChild(nfc, xs[0], Sort(xs[1..]), levels);
      assert Items(xs)[1..] == Items(xs[1..]);
    }
  }

  // ---------------------------------------------------------------- the encoder

  class Budget {
    var spent: nat

    constructor ()
      ensures spent == 0
    {
      spent := 0;
    }
  }

  method CborHead(major: Major, argument: int) returns (r: Result)
    ensures r == if 0 <= argument <= MAX_ARGUMENT then Encoded(Head(major, argument)) else Failed(ArgumentTooLarge)
  {
    if argument < 0 || argument > MAX_ARGUMENT {
      return Failed(ArgumentTooLarge);
    }
    var prefix := 32 * major;
    if argument < 24 {
      return Encoded([prefix + argument]);
    }
    var widths := [(0xFF, 24, 1), (0xFFFF, 25, 2), (0xFFFF_FFFF, 26, 4), (MAX_ARGUMENT, 27, 8)];
    for i := 0 to 4
      invariant i > 0 ==> argument > 0xFF
      invariant i > 1 ==> argument > 0xFFFF
      invariant i > 2 ==> argument > 0xFFFF_FFFF
      invariant i < 4
    {
      var (maximum, additional, width) := widths[i];
      if argument <= maximum {
        return Encoded([prefix + additional] + BigEndian(argument, width));
      }
    }
    return Failed(ArgumentTooLarge);
  }

  /**
    The recursive encoder, counting into a shared budget. It succeeds exactly on
    the values that `Accepts` describes, and then writes `Encode` of the value.
    */
  method DeterministicCbor(nfc: Nfc, value: Value, depth: nat, budget: Budget) returns (r: Result)
    modifies budget
    ensures r.Encoded? <==> Accepts(nfc, value, depth, old(budget.spent))
    ensures r.Encoded? ==> r.bytes == Encode(nfc, value) && budget.spent == old(budget.spent) + Nodes(value)
    decreases MAX_DEPTH + 1 - depth, 2
  {
    budget.spent := budget.spent + 1;
    if depth > MAX_DEPTH || budget.spent > MAX_NODES {
      return Failed(BoundsExceeded);
    }
    match value {
      case Bool(b) => r := Encoded(if b then [0xf5] else [0xf4]);
      case Int(i) =>
        if i < MIN_INT {
          return Failed(BelowI64);
        }
        if i >= 0 { r := CborHead(0, i); } else { r := CborHead(1, -1 - i); }
      case Text(s) => r := EncodeText(nfc, s);
      case List(items) => r := EncodeList(nfc, items, depth, budget);
      case Map(entries) => r := EncodeMap(nfc, entries, depth, budget);
      case Unsupported => r := Failed(NotCanonical);
    }
  }

  method EncodeText(nfc: Nfc, s: string) returns (r: Result)
    ensures r == if TextFits(nfc, s) then Encoded(TextBytes(nfc, s)) else Failed(ArgumentTooLarge)
  {
    var encoded := Utf8(nfc(s));
    r := CborHead(3, |encoded|);
    if r.Encoded? {
      r := Encoded(r.bytes + encoded);
    }
  }

  method EncodeList(nfc: Nfc, items: seq<Value>, depth: nat, budget: Budget) returns (r: Result)
    requires depth <= MAX_DEPTH && 1 <= budget.spent <= MAX_NODES
    modifies budget
    ensures r.Encoded? <==> Accepts(nfc, List(items), depth, old(budget.spent) - 1)
    ensures r.Encoded? ==> r.bytes == Encode(nfc, List(items)) && budget.spent == old(budget.spent) - 1 + Nodes(List(items))
    decreases MAX_DEPTH + 1 - depth, 1
  {
    var head := CborHead(4, |items|);
    if head.Failed? {
      return head;
    }
    FitsMeaning(nfc, items, MAX_DEPTH - depth - 1, budget.spent);
    r := EncodeEach(nfc, items, depth, budget);
    if r.Encoded? {
      r := Encoded(head.bytes + r.bytes);
    }
  }

  /** The joined encodings of a run of values, each encoded one level down. */
  method EncodeEach(nfc: Nfc, vs: seq<Value>, depth: nat, budget: Budget) returns (r: Result)
    requires depth <= MAX_DEPTH && budget.spent <= MAX_NODES
    modifies budget
    ensures r.Encoded? <==> Fits(nfc, vs, MAX_DEPTH - depth - 1, old(budget.spent))
    ensures r.Encoded? ==> r.bytes == EncodeItems(nfc, vs) && budget.spent == old(budget.spent) + NodesOf(vs)
    decreases MAX_DEPTH + 1 - depth, 0, |vs|
  {
    if vs == [] {
      return Encoded([]);
    }
    r := DeterministicCbor(nfc, vs[0], depth + 1, budget);
    if r.Failed? {
      return;
    }
    var rest := EncodeEach(nfc, vs[1..], depth, budget);
    if rest.Failed? {
      return rest;
    }
    r := Encoded(r.bytes + rest.bytes);
  }

  method EncodeMap(nfc: Nfc, entries: seq<Entry>, depth: nat, budget: Budget) returns (r: Result)
    requires depth <= MAX_DEPTH && 1 <= budget.spent <= MAX_NODES
    modifies budget
    ensures r.Encoded? <==> Accepts(nfc, Map(entries), depth, old(budget.spent) - 1)
    ensures r.Encoded? ==> r.bytes == Encode(nfc, Map(entries)) && budget.spent == old(budget.spent) - 1 + Nodes(Map(entries))
    decreases MAX_DEPTH + 1 - depth, 1
  {
    var failure, keyed := EncodeKeys(nfc, entries, depth, budget);
    if failure.Some? {
      EntriesNeedKeys(nfc, entries, MAX_DEPTH - depth - 1);
      return Failed(failure.value);
    }
    var sorted := Sort(keyed);
    var head := CborHead(5, |entries|);
    if head.Failed? {
      return head;
    }
    MapMeaning(nfc, entries, MAX_DEPTH - depth - 1, budget.spent);
    r := EncodeChildren(nfc, sorted, depth, budget);
    if r.Encoded? {
      r := Encoded(head.bytes + r.bytes);
    }
  }

  /** Encodes the keys in insertion order, each as a text value one level down. */
  method EncodeKeys(nfc: Nfc, entries: seq<Entry>, depth: nat, budget: Budget)
    returns (failure: Option<Failure>, keyed: seq<Keyed<Value>>)
    requires depth <= MAX_DEPTH && budget.spent <= MAX_NODES
    modifies budget
    ensures failure.None? <==>
      && (forall i :: 0 <= i < |entries| ==> KeySupported(nfc, entries[i].key))
      && (entries == [] || depth < MAX_DEPTH)
      && old(budget.spent) + |entries| <= MAX_NODES
    ensures failure.None? ==>
      keyed == KeyedChildren(nfc, entries) && budget.spent == old(budget.spent) + |entries|
    decreases MAX_DEPTH + 1 - depth, 0, 1
  {
    keyed := [];
    for k := 0 to |entries|
      invariant forall i :: 0 <= i < k ==> KeySupported(nfc, entries[i].key)
      invariant budget.spent == old(budget.spent) + k <= MAX_NODES
      invariant k > 0 ==> depth < MAX_DEPTH
      invariant keyed + KeyedChildren(nfc, entries[k..]) == KeyedChildren(nfc, entries)
    {
      var key := EncodeKey(nfc, entries[k].key, depth, budget);
      if key.Failed? {
        return Some(key.failure), keyed;
      }
      NextKeyed(nfc, keyed, entries, k);
      keyed := keyed + [Keyed(key.bytes, entries[k].child)];
    }
    assert entries[|entries|..] == [] && keyed + [] == keyed;
    failure := None;
  }

  lemma {:induction false} NextKeyed(nfc: Nfc, keyed: seq<Keyed<Value>>, entries: seq<Entry>, k: nat)
    requires k < |entries|
    ensures keyed + KeyedChildren(nfc, entries[k..]) ==
            (keyed + [Keyed(KeyBytes(nfc, entries[k].key), entries[k].child)]) + KeyedChildren(nfc, entries[k + 1..])
  {
    assert entries[k..][1..] == entries[k + 1..];
  }

  method EncodeKey(nfc: Nfc, key: Key, depth: nat, budget: Budget) returns (r: Result)
    requires depth <= MAX_DEPTH && budget.spent <= MAX_NODES
    modifies budget
    ensures r.Encoded? <==> KeySupported(nfc, key) && depth < MAX_DEPTH && old(budget.spent) + 1 <= MAX_NODES
    ensures r.Encoded? ==> r.bytes == KeyBytes(nfc, key) && budget.spent == old(budget.spent) + 1
    decreases MAX_DEPTH + 1 - depth, 0, 0
  {
    if !key.TextKey? {
      return Failed(KeyNotText);
    }
    r := DeterministicCbor(nfc, Text(nfc(key.name)), depth + 1, budget);
  }

  /** Writes each key followed by its encoded child. */
  method EncodeChildren(nfc: Nfc, sorted: seq<Keyed<Value>>, depth: nat, budget: Budget) returns (r: Result)
    requires depth <= MAX_DEPTH && budget.spent <= MAX_NODES
    modifies budget
    ensures r.Encoded? <==> Fits(nfc, Items(sorted), MAX_DEPTH - depth - 1, old(budget.spent))
    ensures r.Encoded? ==>
      && budget.spent == old(budget.spent) + NodesOf(Items(sorted))
      && r.bytes == Join(MapItems(v => Encode(nfc, v), sorted))
    decreases MAX_DEPTH + 1 - depth, 0, |sorted|
  {
    if sorted == [] {
      return Encoded([]);
    }
    r := DeterministicCbor(nfc, sorted[0].item, depth + 1, budget);
    if r.Failed? {
      return;
    }
    var rest := EncodeChildren(nfc, sorted[1..], depth, budget);
    if rest.Failed? {
      return rest;
    }
    r := Encoded(sorted[0].key + r.bytes + rest.bytes);
  }

  lemma {:induction false} EntriesNeedKeys(nfc: Nfc, entries: seq<Entry>, levels: int)
    ensures EntriesSupported(nfc, entries) ==> forall i :: 0 <= i < |entries| ==> KeySupported(nfc, entries[i].key)
    ensures EntriesNest(entries, levels) ==> entries == [] || levels >= 0
  {
    if entries != [] {
      EntriesNeedKeys(nfc, entries[1..], levels);
      assert EntriesSupported(nfc, entries) ==> EntrySupported(nfc, entries[0]);
      assert EntriesNest(entries, levels) ==> EntryNests(entries[0], levels);
      assert forall i :: 1 <= i < |entries| ==> entries[i] == entries[1..][i - 1];
    }
  }

  /** Encoding the children in sorted order accepts, counts and writes what the map as a whole does. */
  lemma {:induction false} MapMeaning(nfc: Nfc, entries: seq<Entry>, levels: int, spent: nat)
    requires |entries| <= MAX_ARGUMENT && |entries| < spent && levels >= -1 && (entries == [] || levels >= 0)
    requires forall i :: 0 <= i < |entries| ==> KeySupported(nfc, entries[i].key)
    ensures var sorted := Sort(KeyedChildren(nfc, entries));
            && (Fits(nfc, Items(sorted), levels, spent) <==>
                Acceptable(nfc, Map(entries), levels + 1) && spent - 1 - |entries| + Nodes(Map(entries)) <= MAX_NODES)
            && NodesOf(Items(sorted)) == ChildNodes(entries)
            && Join(MapItems(v => Encode(nfc, v), sorted)) == Join(Sort(EntryParts(nfc, entries)))
  {
    var keyed := KeyedChildren(nfc, entries);
    ChildrenOfEntries(nfc, entries, levels);
    SortedChildren(nfc, keyed, levels);
    FitsMeaning(nfc, Items(Sort(keyed)), levels, spent);
    EntryPartsAreEncodedChildren(nfc, entries);
    SortNatural(v => Encode(nfc, v), keyed);
  }
}

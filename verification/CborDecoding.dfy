/**
  A reader for the encoder's output that also reads every longer spelling of a
  head, with the round trip through it: encodings are prefix-free, they
  determine the value up to normalisation and map order, and no other spelling
  of the same value is shorter.
  */
module CborDecoding {
  import opened Wrappers
  import opened Bytes
  import opened Sequences
  import opened Cbor

  // ---------------------------------------------------------------- the reader

  datatype Parsed = Parsed(major: Major, argument: nat, rest: ByteString)

  function ArgumentWidth(low: nat): (w: nat)
    ensures w <= 8
  {
    if low == 24 then 1 else if low == 25 then 2 else if low == 26 then 4 else 8
  }

  function ParseHead(b: ByteString): (r: Option<Parsed>)
    ensures r.Some? ==> |r.value.rest| < |b|
  {
    if b == [] then None else
      var major, low := b[0] / 32, b[0] % 32;
      if low < 24 then Some(Parsed(major, low, b[1..]))
      else if low >= 28 || |b| < 1 + ArgumentWidth(low) then None
      else
        var w := ArgumentWidth(low);
        Some(Parsed(major, FromBigEndian(b[1..1 + w]), b[1 + w..]))
  }

  function Decode(b: ByteString): (r: Option<(Value, ByteString)>)
    ensures r.Some? ==> |r.value.1| < |b|
    decreases |b|, 0
  {
    match ParseHead(b)
    case None => None
    case Some(Parsed(major, argument, rest)) =>
      if major == 0 then Some((Int(argument), rest))
      else if major == 1 then (if -1 - argument < MIN_INT then None else Some((Int(-1 - argument), rest)))
      else if major == 3 then DecodeText(argument, rest)
      else if major == 4 then
        (match DecodeItems(argument, rest)
         case None => None
         case Some((items, tail)) => Some((List(items), tail)))
      else if major == 5 then
        (match DecodeEntries(argument, rest)
         case None => None
         case Some((entries, tail)) => Some((Map(entries), tail)))
      else if b[0] == 0xf4 then Some((Bool(false), rest))
      else if b[0] == 0xf5 then Some((Bool(true), rest))
      else None
  }

  function DecodeText(length: nat, b: ByteString): (r: Option<(Value, ByteString)>)
    ensures r.Some? ==> |r.value.1| <= |b|
  {
    if |b| < length then None else
      match FromUtf8(b[..length])
      case None => None
      case Some(s) => Some((Text(s), b[length..]))
  }

  function DecodeItems(n: nat, b: ByteString): (r: Option<(seq<Value>, ByteString)>)
    ensures r.Some? ==> |r.value.1| <= |b| && |r.value.0| == n
    decreases |b|, n
  {
    if n == 0 then Some(([], b)) else
      match Decode(b)
      case None => None
      case Some((v, rest)) =>
        match DecodeItems(n - 1, rest)
        case None => None
        case Some((vs, tail)) => Some(([v] + vs, tail))
  }

  function DecodeEntry(b: ByteString): (r: Option<(Entry, ByteString)>)
    ensures r.Some? ==> |r.value.1| < |b|
    decreases |b|, 1
  {
    match Decode(b)
    case Some((Text(name), afterKey)) =>
      (match Decode(afterKey)
       case None => None
       case Some((child, rest)) => Some((Entry(TextKey(name), child), rest)))
    case _ => None
  }

  function DecodeEntries(n: nat, b: ByteString): (r: Option<(seq<Entry>, ByteString)>)
    ensures r.Some? ==> |r.value.1| <= |b| && |r.value.0| == n
    decreases |b|, n + 1
  {
    if n == 0 then Some(([], b)) else
      match DecodeEntry(b)
      case None => None
      case Some((entry, rest)) =>
        match DecodeEntries(n - 1, rest)
        case None => None
        case Some((entries, tail)) => Some(([entry] + entries, tail))
  }

  // ---------------------------------------------------------------- plain spelling

  /** No normalisation: used to state that a value is already in the form it is written in. */
  const SAME: Nfc := (s: string) => s

  /** A value spelled out as it stands: text unnormalised, entries in the order listed. */
  function Plain(v: Value): (r: ByteString)
    decreases v, 0
  {
    match v
    case Bool(b) => if b then [0xf5] else [0xf4]
    case Int(i) => if i >= 0 then Head(0, i) else Head(1, -1 - i)
    case Text(s) => TextBytes(SAME, s)
    case List(items) => Head(4, |items|) + PlainItems(items)
    case Map(entries) => Head(5, |entries|) + PlainEntries(entries)
    case Unsupported => []
  }

  function PlainItems(vs: seq<Value>): (r: ByteString)
    decreases vs, 0
  {
    if vs == [] then [] else Plain(vs[0]) + PlainItems(vs[1..])
  }

  function PlainEntry(entry: Entry): (r: ByteString)
    decreases entry, 0
  {
    KeyBytes(SAME, entry.key) + Plain(entry.child)
  }

  function PlainEntries(entries: seq<Entry>): (r: ByteString)
    decreases entries, 0
  {
    if entries == [] then [] else PlainEntry(entries[0]) + PlainEntries(entries[1..])
  }

  lemma {:induction false} WidthBounds()
    ensures Pow256(1) == 0x100 && Pow256(2) == 0x1_0000
    ensures Pow256(4) == 0x1_0000_0000 && Pow256(8) == MAX_ARGUMENT + 1
  {
  }

  lemma {:induction false} HeadRoundTrip(major: Major, argument: nat, rest: ByteString)
    requires argument <= MAX_ARGUMENT
    ensures ParseHead(Head(major, argument) + rest) == Some(Parsed(major, argument, rest))
    ensures argument < 24 ==> (Head(major, argument) + rest)[0] == 32 * major + argument
  {
    var h := Head(major, argument);
    var b := h + rest;
    if argument >= 24 {
      var w := HeadWidth(major, argument);
      assert b[1..1 + w] == h[1..] && b[1 + w..] == rest;
      BigEndianRoundTrip(argument, w);
    } else {
      assert b[1..] == rest;
    }
  }

  lemma {:induction false} HeadWidth(major: Major, argument: nat) returns (w: nat)
    requires 24 <= argument <= MAX_ARGUMENT
    ensures var h := Head(major, argument);
            && h[0] / 32 == major && 24 <= h[0] % 32 < 28 && w == ArgumentWidth(h[0] % 32)
            && |h| == 1 + w && h[1..] == BigEndian(argument, w) && argument < Pow256(w)
  {
    WidthBounds();
    w := ArgumentWidth(Head(major, argument)[0] % 32);
  }

  lemma {:induction false} TextRoundTrip(s: string, rest: ByteString)
    requires TextFits(SAME, s)
    ensures Decode(TextBytes(SAME, s) + rest) == Some((Text(s), rest))
  {
    var payload := Utf8(s);
    assert TextBytes(SAME, s) + rest == Head(3, |payload|) + (payload + rest);
    HeadRoundTrip(3, |payload|, payload + rest);
    assert (payload + rest)[..|payload|] == payload && (payload + rest)[|payload|..] == rest;
    Utf8RoundTrip(s);
  }

  lemma {:induction false} BoolRoundTrip(b: bool, rest: ByteString)
    ensures Decode(Plain(Bool(b)) + rest) == Some((Bool(b), rest))
  {
  }

  lemma {:induction false} IntRoundTrip(i: int, rest: ByteString)
    requires MIN_INT <= i <= MAX_ARGUMENT
    ensures Decode(Plain(Int(i)) + rest) == Some((Int(i), rest))
  {
    if i >= 0 { HeadRoundTrip(0, i, rest); } else { HeadRoundTrip(1, -1 - i, rest); }
  }

  lemma {:induction false} PlainRoundTrip(v: Value, rest: ByteString)
    requires Supported(SAME, v)
    ensures Decode(Plain(v) + rest) == Some((v, rest))
    decreases v, 0
  {
    match v {
      case Bool(b) => BoolRoundTrip(b, rest);
      case Int(i) => IntRoundTrip(i, rest);
      case Text(s) => TextRoundTrip(s, rest);
      case List(items) =>
        ItemsRoundTrip(items, rest);
        ListRoundTrip(items, rest);
      case Map(entries) =>
        EntriesRoundTrip(entries, rest);
        MapRoundTrip(entries, rest);
    }
  }

  lemma {:induction false} ListRoundTrip(items: seq<Value>, rest: ByteString)
    requires |items| <= MAX_ARGUMENT && DecodeItems(|items|, PlainItems(items) + rest) == Some((items, rest))
    ensures Decode(Plain(List(items)) + rest) == Some((List(items), rest))
  {
    Associative(Head(4, |items|), PlainItems(items), rest);
    HeadRoundTrip(4, |items|, PlainItems(items) + rest);
  }

  lemma {:induction false} MapRoundTrip(entries: seq<Entry>, rest: ByteString)
    requires |entries| <= MAX_ARGUMENT && DecodeEntries(|entries|, PlainEntries(entries) + rest) == Some((entries, rest))
    ensures Decode(Plain(Map(entries)) + rest) == Some((Map(entries), rest))
  {
    assert Plain(Map(entries)) + rest == Head(5, |entries|) + (PlainEntries(entries) + rest);
    HeadRoundTrip(5, |entries|, PlainEntries(entries) + rest);
  }

  lemma {:induction false} ItemsRoundTrip(vs: seq<Value>, rest: ByteString)
    requires ItemsSupported(SAME, vs)
    ensures DecodeItems(|vs|, PlainItems(vs) + rest) == Some((vs, rest))
    decreases vs, 0
  {
    if vs == [] {
      assert PlainItems(vs) + rest == rest;
    } else {
      var tail := PlainItems(vs[1..]) + rest;
      Associative(Plain(vs[0]), PlainItems(vs[1..]), rest);
      PlainRoundTrip(vs[0], tail);
      ItemsRoundTrip(vs[1..], rest);
      assert [vs[0]] + vs[1..] == vs;
    }
  }

  lemma {:induction false} EntryRoundTrip(entry: Entry, rest: ByteString)
    requires EntrySupported(SAME, entry)
    ensures DecodeEntry(PlainEntry(entry) + rest) == Some((entry, rest))
    decreases entry, 0
  {
    assert PlainEntry(entry) + rest == TextBytes(SAME, entry.key.name) + (Plain(entry.child) + rest);
    TextRoundTrip(entry.key.name, Plain(entry.child) + rest);
    PlainRoundTrip(entry.child, rest);
  }

  lemma {:induction false} EntriesRoundTrip(entries: seq<Entry>, rest: ByteString)
    requires EntriesSupported(SAME, entries)
    ensures DecodeEntries(|entries|, PlainEntries(entries) + rest) == Some((entries, rest))
    decreases entries, 0
  {
    if entries == [] {
      assert PlainEntries(entries) + rest == rest;
    } else {
      var tail := PlainEntries(entries[1..]) + rest;
      Associative(PlainEntry(entries[0]), PlainEntries(entries[1..]), rest);
      EntryRoundTrip(entries[0], tail);
      EntriesRoundTrip(entries[1..], rest);
      assert [entries[0]] + entries[1..] == entries;
    }
  }

  // ---------------------------------------------------------------- canonical representatives

  /** The value an encoding stands for: text normalised, entries in key order. */
  function Canon(nfc: Nfc, v: Value): (r: Value)
    decreases v, 0
  {
    match v
    case Text(s) => Text(nfc(s))
    case List(items) => List(CanonItems(nfc, items))
    case Map(entries) => Map(Items(Sort(CanonParts(nfc, entries))))
    case _ => v
  }

  function CanonItems(nfc: Nfc, vs: seq<Value>): (r: seq<Value>)
    ensures |r| == |vs|
    decreases vs, 0
  {
    if vs == [] then [] else [Canon(nfc, vs[0])] + CanonItems(nfc, vs[1..])
  }

  function CanonEntry(nfc: Nfc, entry: Entry): (r: Entry)
    decreases entry, 0
  {
    Entry(if entry.key.TextKey? then TextKey(nfc(nfc(entry.key.name))) else OtherKey, Canon(nfc, entry.child))
  }

  function CanonParts(nfc: Nfc, entries: seq<Entry>): (r: seq<Keyed<Entry>>)
    ensures |r| == |entries|
    decreases entries, 0
  {
    if entries == [] then [] else
      [Keyed(KeyBytes(nfc, entries[0].key), CanonEntry(nfc, entries[0]))] + CanonParts(nfc, entries[1..])
  }

  // Entries with the bytes they are sorted by; the encoder's parts and the
  // canonical entries are both images of this list.

  function KeyedEntries(nfc: Nfc, entries: seq<Entry>): (r: seq<Keyed<Entry>>)
    ensures |r| == |entries|
  {
    if entries == [] then [] else
      [Keyed(KeyBytes(nfc, entries[0].key), entries[0])] + KeyedEntries(nfc, entries[1..])
  }

  lemma {:induction false} ImagesOfKeyedEntries(nfc: Nfc, entries: seq<Entry>)
    ensures EntryParts(nfc, entries) == MapItems((e: Entry) => Encode(nfc, e.child), KeyedEntries(nfc, entries))
    ensures CanonParts(nfc, entries) == MapItems(e => CanonEntry(nfc, e), KeyedEntries(nfc, entries))
  {
    if entries != [] {
      ImagesOfKeyedEntries(nfc, entries[1..]);
      assert KeyedEntries(nfc, entries)[1..] == KeyedEntries(nfc, entries[1..]);
      assert EntryPart(nfc, entries[0]) == Keyed(KeyBytes(nfc, entries[0].key), Encode(nfc, entries[0].child));
    }
  }

  /** Supported entries, each listed under its own key bytes. */
  predicate WellKeyed(nfc: Nfc, xs: seq<Keyed<Entry>>) {
    xs == [] || (xs[0].key == KeyBytes(nfc, xs[0].item.key) && EntrySupported(nfc, xs[0].item) && WellKeyed(nfc, xs[1..]))
  }

  function PartNodes(xs: seq<Keyed<Entry>>): (r: nat) {
    if xs == [] then 0 else Nodes(xs[0].item.child) + PartNodes(xs[1..])
  }

  lemma {:induction false} KeyedEntriesAreWellKeyed(nfc: Nfc, entries: seq<Entry>)
    requires EntriesSupported(nfc, entries)
    ensures WellKeyed(nfc, KeyedEntries(nfc, entries)) && PartNodes(KeyedEntries(nfc, entries)) == ChildNodes(entries)
  {
    if entries != [] {
      KeyedEntriesAreWellKeyed(nfc, entries[1..]);
      assert KeyedEntries(nfc, entries)[1..] == KeyedEntries(nfc, entries[1..]);
      assert EntryNodes(entries[0]) == Nodes(entries[0].child);
    }
  }

  lemma {:induction false} InsertWellKeyed(nfc: Nfc, x: Keyed<Entry>, xs: seq<Keyed<Entry>>)
    requires WellKeyed(nfc, xs) && WellKeyed(nfc, [x])
    ensures WellKeyed(nfc, Insert(x, xs)) && PartNodes(Insert(x, xs)) == Nodes(x.item.child) + PartNodes(xs)
  {
    var r := Insert(x, xs);
    if xs == [] || !Less(xs[0].key, x.key) {
      assert r[1..] == xs;
    } else {
      InsertWellKeyed(nfc, x, xs[1..]);
      assert r[1..] == Insert(x, xs[1..]);
    }
  }

  lemma {:induction false} SortWellKeyed(nfc: Nfc, xs: seq<Keyed<Entry>>)
    requires WellKeyed(nfc, xs)
    ensures WellKeyed(nfc, Sort(xs)) && PartNodes(Sort(xs)) == PartNodes(xs)
  {
    if xs != [] {
      SortWellKeyed(nfc, xs[1..]);
      assert WellKeyed(nfc, [xs[0]]);
      InsertWellKeyed(nfc, xs[0], Sort(xs[1..]));
    }
  }

  /** The encoder writes the canonical representative, spelled plainly. */
  lemma {:induction false} EncodeIsPlainCanon(nfc: Nfc, v: Value)
    requires Supported(nfc, v)
    ensures Encode(nfc, v) == Plain(Canon(nfc, v)) && Supported(SAME, Canon(nfc, v))
    decreases Nodes(v), 1
  {
    match v {
      case Bool(_) =>
      case Int(_) =>
      case Text(s) =>
      case List(items) => ItemsArePlainCanon(nfc, items);
      case Map(entries) => MapIsPlainCanon(nfc, entries);
    }
  }

  lemma {:induction false} ItemsArePlainCanon(nfc: Nfc, vs: seq<Value>)
    requires ItemsSupported(nfc, vs)
    ensures EncodeItems(nfc, vs) == PlainItems(CanonItems(nfc, vs)) && ItemsSupported(SAME, CanonItems(nfc, vs))
    decreases NodesOf(vs), 2
  {
    if vs != [] {
      EncodeIsPlainCanon(nfc, vs[0]);
      ItemsArePlainCanon(nfc, vs[1..]);
      assert CanonItems(nfc, vs)[1..] == CanonItems(nfc, vs[1..]);
    }
  }

  lemma {:induction false} MapIsPlainCanon(nfc: Nfc, entries: seq<Entry>)
    requires Supported(nfc, Map(entries))
    ensures Encode(nfc, Map(entries)) == Plain(Canon(nfc, Map(entries))) && Supported(SAME, Canon(nfc, Map(entries)))
    decreases Nodes(Map(entries)), 0
  {
    var keyed := KeyedEntries(nfc, entries);
    ImagesOfKeyedEntries(nfc, entries);
    KeyedEntriesAreWellKeyed(nfc, entries);
    SortWellKeyed(nfc, keyed);
    SortNatural((e: Entry) => Encode(nfc, e.child), keyed);
    SortNatural(e => CanonEntry(nfc, e), keyed);
    PartsArePlainCanon(nfc, Sort(keyed));
  }

  lemma {:induction false} PartsArePlainCanon(nfc: Nfc, xs: seq<Keyed<Entry>>)
    requires WellKeyed(nfc, xs)
    ensures var canon := Items(MapItems(e => CanonEntry(nfc, e), xs));
            && Join(MapItems((e: Entry) => Encode(nfc, e.child), xs)) == PlainEntries(canon)
            && EntriesSupported(SAME, canon)
    decreases PartNodes(xs), 2
  {
    if xs != [] {
      var entry := xs[0].item;
      EncodeIsPlainCanon(nfc, entry.child);
      PartsArePlainCanon(nfc, xs[1..]);
      var mapped := MapItems(e => CanonEntry(nfc, e), xs);
      assert mapped[1..] == MapItems(e => CanonEntry(nfc, e), xs[1..]);
      assert Items(mapped)[1..] == Items(mapped[1..]);
      assert KeyBytes(nfc, entry.key) == KeyBytes(SAME, CanonEntry(nfc, entry).key);
      assert PlainEntry(CanonEntry(nfc, entry)) == xs[0].key + Encode(nfc, entry.child);
      assert EntrySupported(SAME, CanonEntry(nfc, entry));
    }
  }

  // ---------------------------------------------------------------- results

  /** Reading back what the encoder wrote gives the canonical representative and the untouched rest. */
  lemma {:induction false} RoundTrip(nfc: Nfc, v: Value, rest: ByteString)
    requires Supported(nfc, v)
    ensures Decode(Encode(nfc, v) + rest) == Some((Canon(nfc, v), rest))
  {
    EncodeIsPlainCanon(nfc, v);
    PlainRoundTrip(Canon(nfc, v), rest);
  }

  /** No encoding is a proper prefix of another, and two encodings agree exactly when their canonical values do. */
  lemma {:induction false} PrefixFree(nfc: Nfc, v: Value, w: Value, afterV: ByteString, afterW: ByteString)
    requires Supported(nfc, v) && Supported(nfc, w)
    ensures Encode(nfc, v) + afterV == Encode(nfc, w) + afterW <==> Canon(nfc, v) == Canon(nfc, w) && afterV == afterW
  {
    EncodeIsPlainCanon(nfc, v);
    EncodeIsPlainCanon(nfc, w);
    RoundTrip(nfc, v, afterV);
    RoundTrip(nfc, w, afterW);
  }
}

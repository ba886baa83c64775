/**
  What makes the encoding canonical: it is the shortest spelling, its keys
  strictly increase, it identifies exactly the values that are equal as
  dictionaries up to normalisation, and it forgets insertion order exactly when
  keys that collide after normalisation carry the same encoding.
  */
module CborCanonical {
  import opened Wrappers
  import opened Bytes
  import opened Sequences
  import opened Cbor
  import opened CborDecoding

  // ---------------------------------------------------------------- shortest spelling

  lemma {:induction false} HeadIsShortest(b: ByteString)
    requires ParseHead(b).Some?
    ensures var p := ParseHead(b).value;
            p.argument <= MAX_ARGUMENT && |Head(p.major, p.argument)| + |p.rest| <= |b|
  {
  }

  /** Whatever the reader accepts is no shorter than the plain spelling of the value it reads. */
  lemma {:induction false} PlainIsShortest(b: ByteString)
    requires Decode(b).Some?
    ensures var (v, rest) := Decode(b).value;
            Supported(SAME, v) && |Plain(v)| + |rest| <= |b|
    decreases |b|, 0
  {
    HeadIsShortest(b);
    var Parsed(major, argument, rest) := ParseHead(b).value;
    if major == 3 {
      var s := FromUtf8(rest[..argument]).value;
      Utf8IsShortest(rest[..argument], s);
      HeadGrows(3, |Utf8(s)|, argument);
    } else if major == 4 {
      ItemsAreShortest(argument, rest);
    } else if major == 5 {
      EntriesAreShortest(argument, rest);
    }
  }

  lemma {:induction false} HeadGrows(major: Major, smaller: nat, larger: nat)
    requires smaller <= larger
    ensures |Head(major, smaller)| <= |Head(major, larger)|
  {
  }

  lemma {:induction false} ItemsAreShortest(n: nat, b: ByteString)
    requires DecodeItems(n, b).Some?
    ensures var (vs, rest) := DecodeItems(n, b).value;
            ItemsSupported(SAME, vs) && |PlainItems(vs)| + |rest| <= |b|
    decreases |b|, n
  {
    if n > 0 {
      PlainIsShortest(b);
      ItemsAreShortest(n - 1, Decode(b).value.1);
    }
  }

  lemma {:induction false} EntryIsShortest(b: ByteString)
    requires DecodeEntry(b).Some?
    ensures var (entry, rest) := DecodeEntry(b).value;
            EntrySupported(SAME, entry) && |PlainEntry(entry)| + |rest| <= |b|
    decreases |b|, 1
  {
    PlainIsShortest(b);
    PlainIsShortest(Decode(b).value.1);
  }

  lemma {:induction false} EntriesAreShortest(n: nat, b: ByteString)
    requires DecodeEntries(n, b).Some?
    ensures var (entries, rest) := DecodeEntries(n, b).value;
            EntriesSupported(SAME, entries) && |PlainEntries(entries)| + |rest| <= |b|
    decreases |b|, n + 1
  {
    if n > 0 {
      EntryIsShortest(b);
      EntriesAreShortest(n - 1, DecodeEntry(b).value.1);
    }
  }

  /** No spelling of a value that the reader accepts is shorter than the encoder's. */
  lemma {:induction false} EncodingIsShortest(nfc: Nfc, v: Value, b: ByteString, rest: ByteString)
    requires Supported(nfc, v) && Decode(b) == Some((Canon(nfc, v), rest))
    ensures |Encode(nfc, v)| + |rest| <= |b|
  {
    EncodeIsPlainCanon(nfc, v);
    PlainIsShortest(b);
  }

  // ---------------------------------------------------------------- strictly increasing keys

  function CanonKey(nfc: Nfc, key: Key): (r: Key) {
    if key.TextKey? then TextKey(nfc(nfc(key.name))) else OtherKey
  }

  predicate NameAbsent(nfc: Nfc, key: Key, entries: seq<Entry>) {
    entries == [] || (CanonKey(nfc, entries[0].key) != CanonKey(nfc, key) && NameAbsent(nfc, key, entries[1..]))
  }

  /** The normalised keys are pairwise distinct. */
  predicate NamesDistinct(nfc: Nfc, entries: seq<Entry>) {
    entries == [] || (NameAbsent(nfc, entries[0].key, entries[1..]) && NamesDistinct(nfc, entries[1..]))
  }

  lemma {:induction false} KeyBytesDetermineKey(nfc: Nfc, a: Key, b: Key)
    requires KeySupported(nfc, a) && KeySupported(nfc, b)
    ensures KeyBytes(nfc, a) == KeyBytes(nfc, b) <==> CanonKey(nfc, a) == CanonKey(nfc, b)
  {
    TextRoundTrip(nfc(nfc(a.name)), []);
    TextRoundTrip(nfc(nfc(b.name)), []);
    assert KeyBytes(nfc, a) == TextBytes(SAME, nfc(nfc(a.name)));
    assert KeyBytes(nfc, b) == TextBytes(SAME, nfc(nfc(b.name)));
  }

  lemma {:induction false} AbsentNameCountsZero(nfc: Nfc, key: Key, entries: seq<Entry>)
    requires KeySupported(nfc, key) && EntriesSupported(nfc, entries)
    ensures KeyCount(KeyedEntries(nfc, entries), KeyBytes(nfc, key)) == 0 <==> NameAbsent(nfc, key, entries)
  {
    if entries != [] {
      assert EntrySupported(nfc, entries[0]);
      KeyBytesDetermineKey(nfc, entries[0].key, key);
      AbsentNameCountsZero(nfc, key, entries[1..]);
      assert KeyedEntries(nfc, entries)[1..] == KeyedEntries(nfc, entries[1..]);
    }
  }

  lemma {:induction false} DistinctNamesDistinctKeys(nfc: Nfc, entries: seq<Entry>)
    requires EntriesSupported(nfc, entries)
    ensures DistinctKeyed(KeyedEntries(nfc, entries)) <==> NamesDistinct(nfc, entries)
  {
    if entries != [] {
      assert EntrySupported(nfc, entries[0]);
      AbsentNameCountsZero(nfc, entries[0].key, entries[1..]);
      DistinctNamesDistinctKeys(nfc, entries[1..]);
      assert KeyedEntries(nfc, entries)[1..] == KeyedEntries(nfc, entries[1..]);
    }
  }

  lemma {:induction false} MapItemsKeepsKeys<T, U>(f: T -> U, xs: seq<Keyed<T>>)
    ensures KeysOf(MapItems(f, xs)) == KeysOf(xs)
    ensures DistinctKeyed(MapItems(f, xs)) <==> DistinctKeyed(xs)
  {
    if xs != [] {
      var ys := MapItems(f, xs);
      MapItemsKeepsKeys(f, xs[1..]);
      MapItemsKeepsCount(f, xs[1..], xs[0].key);
      assert ys[1..] == MapItems(f, xs[1..]);
      FirstKey(xs);
      FirstKey(ys);
    }
  }

  lemma {:induction false} FirstKey<T>(xs: seq<Keyed<T>>)
    requires xs != []
    ensures KeysOf(xs) == [xs[0].key] + KeysOf(xs[1..])
  {
  }

  lemma {:induction false} MapItemsKeepsCount<T, U>(f: T -> U, xs: seq<Keyed<T>>, key: ByteString)
    ensures KeyCount(MapItems(f, xs), key) == KeyCount(xs, key)
  {
    if xs != [] {
      MapItemsKeepsCount(f, xs[1..], key);
      assert MapItems(f, xs)[1..] == MapItems(f, xs[1..]);
    }
  }

  /** The keys a map writes strictly increase exactly when its normalised keys are pairwise distinct. */
  lemma {:induction false} KeysIncrease(nfc: Nfc, entries: seq<Entry>)
    requires Supported(nfc, Map(entries))
    ensures StrictlyIncreasing(KeysOf(Sort(EntryParts(nfc, entries)))) <==> NamesDistinct(nfc, entries)
  {
    ImagesOfKeyedEntries(nfc, entries);
    MapItemsKeepsKeys((e: Entry) => Encode(nfc, e.child), KeyedEntries(nfc, entries));
    DistinctNamesDistinctKeys(nfc, entries);
    SortIncreases(EntryParts(nfc, entries));
  }

  // ---------------------------------------------------------------- equality of values

  /** Equality as Python sees it, up to normalisation: dictionaries as unordered sets of entries. */
  predicate Same(nfc: Nfc, v: Value, w: Value)
    decreases v, 0
  {
    match (v, w)
    case (Text(s), Text(t)) => nfc(s) == nfc(t)
    case (List(a), List(b)) => SameItems(nfc, a, b)
    case (Map(a), Map(b)) => EachHasCounterpart(nfc, a, b) && EachIsCounterpart(nfc, a, b)
    case _ => v == w
  }

  predicate SameItems(nfc: Nfc, a: seq<Value>, b: seq<Value>)
    decreases a, 0
  {
    |a| == |b| && (a == [] || (Same(nfc, a[0], b[0]) && SameItems(nfc, a[1..], b[1..])))
  }

  predicate SameEntry(nfc: Nfc, e: Entry, f: Entry)
    decreases e, 0
  {
    CanonKey(nfc, e.key) == CanonKey(nfc, f.key) && Same(nfc, e.child, f.child)
  }

  /** Every entry of `a` is the same as some entry of `b`. */
  predicate EachHasCounterpart(nfc: Nfc, a: seq<Entry>, b: seq<Entry>)
    decreases a, 0
  {
    a == [] || (HasCounterpart(nfc, a[0], b) && EachHasCounterpart(nfc, a[1..], b))
  }

  predicate HasCounterpart(nfc: Nfc, e: Entry, b: seq<Entry>)
    decreases e, |b| + 1
  {
    b != [] && (SameEntry(nfc, e, b[0]) || HasCounterpart(nfc, e, b[1..]))
  }

  /** Every entry of `b` is the same as some entry of `a`. */
  predicate EachIsCounterpart(nfc: Nfc, a: seq<Entry>, b: seq<Entry>)
    decreases a, |b| + 1
  {
    b == [] || (IsCounterpart(nfc, a, b[0]) && EachIsCounterpart(nfc, a, b[1..]))
  }

  predicate IsCounterpart(nfc: Nfc, a: seq<Entry>, f: Entry)
    decreases a, 0
  {
    a != [] && (SameEntry(nfc, a[0], f) || IsCounterpart(nfc, a[1..], f))
  }

  /** Every dictionary inside the value has pairwise distinct normalised keys. */
  predicate KeysDistinct(nfc: Nfc, v: Value)
    decreases v, 0
  {
    match v
    case List(items) => ItemKeysDistinct(nfc, items)
    case Map(entries) => NamesDistinct(nfc, entries) && EntryKeysDistinct(nfc, entries)
    case _ => true
  }

  predicate ItemKeysDistinct(nfc: Nfc, vs: seq<Value>)
    decreases vs, 0
  {
    vs == [] || (KeysDistinct(nfc, vs[0]) && ItemKeysDistinct(nfc, vs[1..]))
  }

  predicate EntryKeysDistinct(nfc: Nfc, entries: seq<Entry>)
    decreases entries, 0
  {
    entries == [] || (ChildKeysDistinct(nfc, entries[0]) && EntryKeysDistinct(nfc, entries[1..]))
  }

  predicate ChildKeysDistinct(nfc: Nfc, entry: Entry)
    decreases entry, 0
  {
    KeysDistinct(nfc, entry.child)
  }

  /** Ready to be compared: representable, without colliding keys. */
  predicate Proper(nfc: Nfc, v: Value) { Supported(nfc, v) && KeysDistinct(nfc, v) }
  predicate ProperItems(nfc: Nfc, vs: seq<Value>) { ItemsSupported(nfc, vs) && ItemKeysDistinct(nfc, vs) }
  predicate ProperEntry(nfc: Nfc, e: Entry) { EntrySupported(nfc, e) && ChildKeysDistinct(nfc, e) }
  predicate ProperEntries(nfc: Nfc, es: seq<Entry>) { EntriesSupported(nfc, es) && EntryKeysDistinct(nfc, es) }

  function CanonPart(nfc: Nfc, e: Entry): (r: Keyed<Entry>) {
    Keyed(KeyBytes(nfc, e.key), CanonEntry(nfc, e))
  }

  // The same canonical form, when the values are the same.

  lemma {:induction false} SameHasSameCanon(nfc: Nfc, v: Value, w: Value)
    requires Proper(nfc, v) && Proper(nfc, w) && Same(nfc, v, w)
    ensures Canon(nfc, v) == Canon(nfc, w)
    decreases v, 0
  {
    match (v, w) {
      case (List(a), List(b)) => SameItemsHaveSameCanon(nfc, a, b);
      case (Map(a), Map(b)) =>
        EachHasSamePart(nfc, a, b);
        EachIsSamePart(nfc, a, b);
        SamePartsSortAlike(nfc, a, b);
      case _ =>
    }
  }

  lemma {:induction false} SameItemsHaveSameCanon(nfc: Nfc, a: seq<Value>, b: seq<Value>)
    requires ProperItems(nfc, a) && ProperItems(nfc, b) && SameItems(nfc, a, b)
    ensures CanonItems(nfc, a) == CanonItems(nfc, b)
    decreases a, 0
  {
    if a != [] {
      SameHasSameCanon(nfc, a[0], b[0]);
      SameItemsHaveSameCanon(nfc, a[1..], b[1..]);
    }
  }

  lemma {:induction false} SameEntryHasSamePart(nfc: Nfc, e: Entry, f: Entry)
    requires ProperEntry(nfc, e) && ProperEntry(nfc, f) && SameEntry(nfc, e, f)
    ensures CanonPart(nfc, e) == CanonPart(nfc, f)
    decreases e, 0
  {
    KeyBytesDetermineKey(nfc, e.key, f.key);
    SameHasSameCanon(nfc, e.child, f.child);
  }

  lemma {:induction false} CounterpartHasSamePart(nfc: Nfc, e: Entry, b: seq<Entry>)
    requires ProperEntry(nfc, e) && ProperEntries(nfc, b) && HasCounterpart(nfc, e, b)
    ensures CanonPart(nfc, e) in CanonParts(nfc, b)
    decreases e, |b| + 1
  {
    if SameEntry(nfc, e, b[0]) {
      SameEntryHasSamePart(nfc, e, b[0]);
    } else {
      CounterpartHasSamePart(nfc, e, b[1..]);
    }
  }

  lemma {:induction false} EachHasSamePart(nfc: Nfc, a: seq<Entry>, b: seq<Entry>)
    requires ProperEntries(nfc, a) && ProperEntries(nfc, b) && EachHasCounterpart(nfc, a, b)
    ensures forall x :: x in CanonParts(nfc, a) ==> x in CanonParts(nfc, b)
    decreases a, 0
  {
    if a != [] {
      CounterpartHasSamePart(nfc, a[0], b);
      EachHasSamePart(nfc, a[1..], b);
      assert CanonParts(nfc, a) == [CanonPart(nfc, a[0])] + CanonParts(nfc, a[1..]);
    }
  }

  lemma {:induction false} IsCounterpartHasSamePart(nfc: Nfc, a: seq<Entry>, f: Entry)
    requires ProperEntries(nfc, a) && ProperEntry(nfc, f) && IsCounterpart(nfc, a, f)
    ensures CanonPart(nfc, f) in CanonParts(nfc, a)
    decreases a, 0
  {
    if SameEntry(nfc, a[0], f) {
      SameEntryHasSamePart(nfc, a[0], f);
    } else {
      IsCounterpartHasSamePart(nfc, a[1..], f);
    }
  }

  lemma {:induction false} EachIsSamePart(nfc: Nfc, a: seq<Entry>, b: seq<Entry>)
    requires ProperEntries(nfc, a) && ProperEntries(nfc, b) && EachIsCounterpart(nfc, a, b)
    ensures forall x :: x in CanonParts(nfc, b) ==> x in CanonParts(nfc, a)
    decreases a, |b| + 1
  {
    if b != [] {
      IsCounterpartHasSamePart(nfc, a, b[0]);
      EachIsSamePart(nfc, a, b[1..]);
      assert CanonParts(nfc, b) == [CanonPart(nfc, b[0])] + CanonParts(nfc, b[1..]);
    }
  }

  lemma {:induction false} SamePartsSortAlike(nfc: Nfc, a: seq<Entry>, b: seq<Entry>)
    requires EntriesSupported(nfc, a) && EntriesSupported(nfc, b) && NamesDistinct(nfc, a) && NamesDistinct(nfc, b)
    requires forall x :: x in CanonParts(nfc, a) <==> x in CanonParts(nfc, b)
    ensures Sort(CanonParts(nfc, a)) == Sort(CanonParts(nfc, b))
  {
    ImagesOfKeyedEntries(nfc, a);
    ImagesOfKeyedEntries(nfc, b);
    MapItemsKeepsKeys(e => CanonEntry(nfc, e), KeyedEntries(nfc, a));
    MapItemsKeepsKeys(e => CanonEntry(nfc, e), KeyedEntries(nfc, b));
    DistinctNamesDistinctKeys(nfc, a);
    DistinctNamesDistinctKeys(nfc, b);
    SortForgetsOrder(CanonParts(nfc, a), CanonParts(nfc, b));
  }

  // The same value, when the canonical forms are the same.

  /** Canonical entries listed under the bytes of their own keys. */
  predicate SelfKeyed(xs: seq<Keyed<Entry>>) {
    xs == [] || (xs[0].key == KeyBytes(SAME, xs[0].item.key) && SelfKeyed(xs[1..]))
  }

  lemma {:induction false} CanonPartsAreSelfKeyed(nfc: Nfc, entries: seq<Entry>)
    ensures SelfKeyed(CanonParts(nfc, entries))
  {
    if entries != [] {
      CanonPartsAreSelfKeyed(nfc, entries[1..]);
      assert CanonParts(nfc, entries)[1..] == CanonParts(nfc, entries[1..]);
      assert CanonEntry(nfc, entries[0]).key == CanonKey(nfc, entries[0].key);
    }
  }

  lemma {:induction false} InsertSelfKeyed(x: Keyed<Entry>, xs: seq<Keyed<Entry>>)
    requires SelfKeyed([x]) && SelfKeyed(xs)
    ensures SelfKeyed(Insert(x, xs))
  {
    var r := Insert(x, xs);
    if xs == [] || !Less(xs[0].key, x.key) {
      assert r[1..] == xs;
    } else {
      InsertSelfKeyed(x, xs[1..]);
      assert r[1..] == Insert(x, xs[1..]);
    }
  }

  lemma {:induction false} SortSelfKeyed(xs: seq<Keyed<Entry>>)
    requires SelfKeyed(xs)
    ensures SelfKeyed(Sort(xs))
  {
    if xs != [] {
      SortSelfKeyed(xs[1..]);
      assert SelfKeyed([xs[0]]);
      InsertSelfKeyed(xs[0], Sort(xs[1..]));
    }
  }

  lemma {:induction false} ItemsDetermineSelfKeyed(xs: seq<Keyed<Entry>>, ys: seq<Keyed<Entry>>)
    requires SelfKeyed(xs) && SelfKeyed(ys) && Items(xs) == Items(ys)
    ensures xs == ys
  {
    assert |xs| == |Items(xs)| == |ys|;
    if xs != [] {
      assert Items(xs)[0] == Items(ys)[0];
      assert Items(xs[1..]) == Items(xs)[1..] == Items(ys[1..]);
      ItemsDetermineSelfKeyed(xs[1..], ys[1..]);
      assert xs == [xs[0]] + xs[1..] && ys == [ys[0]] + ys[1..];
    }
  }

  /** Equal canonical maps have the same sorted parts, hence the same parts. */
  lemma {:induction false} SameCanonHasSameParts(nfc: Nfc, a: seq<Entry>, b: seq<Entry>)
    requires Canon(nfc, Map(a)) == Canon(nfc, Map(b))
    ensures Sort(CanonParts(nfc, a)) == Sort(CanonParts(nfc, b))
    ensures forall x :: x in CanonParts(nfc, a) <==> x in CanonParts(nfc, b)
  {
    var partsA, partsB := CanonParts(nfc, a), CanonParts(nfc, b);
    CanonPartsAreSelfKeyed(nfc, a);
    CanonPartsAreSelfKeyed(nfc, b);
    SortSelfKeyed(partsA);
    SortSelfKeyed(partsB);
    ItemsDetermineSelfKeyed(Sort(partsA), Sort(partsB));
    forall x ensures x in partsA <==> x in partsB {
      SortMember(partsA, x);
      SortMember(partsB, x);
    }
  }

  lemma {:induction false} SameCanonIsSame(nfc: Nfc, v: Value, w: Value)
    requires Canon(nfc, v) == Canon(nfc, w)
    ensures Same(nfc, v, w)
    decreases v, 0
  {
    match (v, w) {
      case (List(a), List(b)) => SameCanonItemsAreSame(nfc, a, b);
      case (Map(a), Map(b)) =>
        SameCanonHasSameParts(nfc, a, b);
        EachHas(nfc, a, b);
        EachIs(nfc, a, b);
      case _ =>
    }
  }

  lemma {:induction false} SameCanonItemsAreSame(nfc: Nfc, a: seq<Value>, b: seq<Value>)
    requires CanonItems(nfc, a) == CanonItems(nfc, b)
    ensures SameItems(nfc, a, b)
    decreases a, 0
  {
    assert |a| == |CanonItems(nfc, a)| == |b|;
    if a != [] {
      assert CanonItems(nfc, a)[0] == CanonItems(nfc, b)[0];
      assert CanonItems(nfc, a)[1..] == CanonItems(nfc, a[1..]) == CanonItems(nfc, b[1..]);
      SameCanonIsSame(nfc, a[0], b[0]);
      SameCanonItemsAreSame(nfc, a[1..], b[1..]);
    }
  }

  lemma {:induction false} SamePartIsSameEntry(nfc: Nfc, e: Entry, f: Entry)
    requires CanonPart(nfc, e) == CanonPart(nfc, f)
    ensures SameEntry(nfc, e, f)
    decreases e, 0
  {
    SameCanonIsSame(nfc, e.child, f.child);
  }

  lemma {:induction false} Has(nfc: Nfc, e: Entry, b: seq<Entry>)
    requires CanonPart(nfc, e) in CanonParts(nfc, b)
    ensures HasCounterpart(nfc, e, b)
    decreases e, |b| + 1
  {
    assert CanonParts(nfc, b) == [CanonPart(nfc, b[0])] + CanonParts(nfc, b[1..]);
    if CanonPart(nfc, e) == CanonPart(nfc, b[0]) {
      SamePartIsSameEntry(nfc, e, b[0]);
    } else {
      Has(nfc, e, b[1..]);
    }
  }

  lemma {:induction false} EachHas(nfc: Nfc, a: seq<Entry>, b: seq<Entry>)
    requires forall x :: x in CanonParts(nfc, a) ==> x in CanonParts(nfc, b)
    ensures EachHasCounterpart(nfc, a, b)
    decreases a, 0
  {
    if a != [] {
      assert CanonParts(nfc, a) == [CanonPart(nfc, a[0])] + CanonParts(nfc, a[1..]);
      Has(nfc, a[0], b);
      EachHas(nfc, a[1..], b);
    }
  }

  lemma {:induction false} Is(nfc: Nfc, a: seq<Entry>, f: Entry)
    requires CanonPart(nfc, f) in CanonParts(nfc, a)
    ensures IsCounterpart(nfc, a, f)
    decreases a, 0
  {
    assert CanonParts(nfc, a) == [CanonPart(nfc, a[0])] + CanonParts(nfc, a[1..]);
    if CanonPart(nfc, a[0]) == CanonPart(nfc, f) {
      SamePartIsSameEntry(nfc, a[0], f);
    } else {
      Is(nfc, a[1..], f);
    }
  }

  lemma {:induction false} EachIs(nfc: Nfc, a: seq<Entry>, b: seq<Entry>)
    requires forall x :: x in CanonParts(nfc, b) ==> x in CanonParts(nfc, a)
    ensures EachIsCounterpart(nfc, a, b)
    decreases a, |b| + 1
  {
    if b != [] {
      assert CanonParts(nfc, b) == [CanonPart(nfc, b[0])] + CanonParts(nfc, b[1..]);
      Is(nfc, a, b[0]);
      EachIs(nfc, a, b[1..]);
    }
  }

  /** Two values are written the same exactly when they are the same value. */
  lemma {:induction false} EncodingIdentifiesValues(nfc: Nfc, v: Value, w: Value)
    requires Supported(nfc, v) && Supported(nfc, w) && KeysDistinct(nfc, v) && KeysDistinct(nfc, w)
    ensures Encode(nfc, v) == Encode(nfc, w) <==> Same(nfc, v, w)
  {
    if Same(nfc, v, w) {
      SameHasSameCanon(nfc, v, w);
      EncodeIsPlainCanon(nfc, v);
      EncodeIsPlainCanon(nfc, w);
    }
    if Encode(nfc, v) == Encode(nfc, w) {
      EncodedAlikeHasSameCanon(nfc, v, w);
      SameCanonIsSame(nfc, v, w);
    }
  }

  // ---------------------------------------------------------------- insertion order

  /** Every insertion order of the same entries is written the same. */
  ghost predicate OrderForgotten(nfc: Nfc, entries: seq<Entry>) {
    forall shuffled :: Reorders(shuffled, entries) ==> EncodedAlike(nfc, shuffled, entries)
  }

  ghost predicate Reorders(a: seq<Entry>, b: seq<Entry>) { multiset(a) == multiset(b) }

  predicate EncodedAlike(nfc: Nfc, a: seq<Entry>, b: seq<Entry>) { Encode(nfc, Map(a)) == Encode(nfc, Map(b)) }

  /** Keys that become equal under normalisation carry values with one canonical form. */
  ghost predicate CollisionsAgree(nfc: Nfc, entries: seq<Entry>) {
    forall e, f :: e in entries && f in entries && CanonKey(nfc, e.key) == CanonKey(nfc, f.key) ==>
      Canon(nfc, e.child) == Canon(nfc, f.child)
  }

  lemma {:induction false} EntriesSupportedMeaning(nfc: Nfc, entries: seq<Entry>)
    ensures EntriesSupported(nfc, entries) <==> forall e :: e in entries ==> EntrySupported(nfc, e)
  {
    if entries != [] {
      EntriesSupportedMeaning(nfc, entries[1..]);
      assert EntriesSupported(nfc, entries) <==> EntrySupported(nfc, entries[0]) && EntriesSupported(nfc, entries[1..]);
      assert entries[0] in entries;
      assert forall e :: e in entries[1..] ==> e in entries;
      assert forall e :: e in entries ==> e == entries[0] || e in entries[1..];
    }
  }

  lemma {:induction false} EntryPartsConcat(nfc: Nfc, a: seq<Entry>, b: seq<Entry>)
    ensures EntryParts(nfc, a + b) == EntryParts(nfc, a) + EntryParts(nfc, b)
  {
    if a == [] {
      assert a + b == b;
    } else {
      EntryPartsConcat(nfc, a[1..], b);
      assert (a + b)[0] == a[0] && (a + b)[1..] == a[1..] + b;
      Associative([EntryPart(nfc, a[0])], EntryParts(nfc, a[1..]), EntryParts(nfc, b));
    }
  }

  lemma {:induction false} EntryPartsPermute(nfc: Nfc, a: seq<Entry>, b: seq<Entry>)
    requires multiset(a) == multiset(b)
    ensures multiset(EntryParts(nfc, a)) == multiset(EntryParts(nfc, b))
  {
    assert |a| == |multiset(a)| == |b|;
    if a != [] {
      var i := StrikeHead(a, b);
      EntryPartsPermute(nfc, a[1..], b[..i] + b[i + 1..]);
      EntryPartsStrike(nfc, b, i);
      assert EntryParts(nfc, a) == [EntryPart(nfc, a[0])] + EntryParts(nfc, a[1..]);
    }
  }

  lemma {:induction false} EntryPartsStrike(nfc: Nfc, b: seq<Entry>, i: nat)
    requires i < |b|
    ensures multiset(EntryParts(nfc, b)) == multiset{EntryPart(nfc, b[i])} + multiset(EntryParts(nfc, b[..i] + b[i + 1..]))
  {
    assert b == b[..i] + b[i..];
    assert b[i..][1..] == b[i + 1..];
    EntryPartsConcat(nfc, b[..i], b[i + 1..]);
    EntryPartsConcat(nfc, b[..i], b[i..]);
  }

  lemma {:induction false} EntryPartMember(nfc: Nfc, entries: seq<Entry>, part: Keyed<ByteString>) returns (e: Entry)
    requires part in EntryParts(nfc, entries)
    ensures e in entries && part == EntryPart(nfc, e)
  {
    if part == EntryPart(nfc, entries[0]) {
      e := entries[0];
    } else {
      e := EntryPartMember(nfc, entries[1..], part);
    }
  }

  lemma {:induction false} AgreeingCollisionsForgetOrder(nfc: Nfc, entries: seq<Entry>, shuffled: seq<Entry>)
    requires Supported(nfc, Map(entries)) && CollisionsAgree(nfc, entries)
    requires multiset(shuffled) == multiset(entries)
    ensures Encode(nfc, Map(shuffled)) == Encode(nfc, Map(entries))
  {
    var xs, ys := EntryParts(nfc, entries), EntryParts(nfc, shuffled);
    EntryPartsPermute(nfc, entries, shuffled);
    SortMultiset(xs);
    SortMultiset(ys);
    SortOrdered(xs);
    SortOrdered(ys);
    forall x, y | x in Sort(xs) && y in Sort(xs) && x.key == y.key ensures x == y {
      SortMember(xs, x);
      SortMember(xs, y);
      CollidingPartsAgree(nfc, entries, x, y);
    }
    OrderedListingIsUnique(Sort(xs), Sort(ys));
    assert |entries| == |multiset(entries)| == |shuffled|;
  }

  lemma {:induction false} CollidingPartsAgree(nfc: Nfc, entries: seq<Entry>, x: Keyed<ByteString>, y: Keyed<ByteString>)
    requires Supported(nfc, Map(entries)) && CollisionsAgree(nfc, entries)
    requires x in EntryParts(nfc, entries) && y in EntryParts(nfc, entries) && x.key == y.key
    ensures x == y
  {
    var e := EntryPartMember(nfc, entries, x);
    var f := EntryPartMember(nfc, entries, y);
    EntriesSupportedMeaning(nfc, entries);
    assert EntrySupported(nfc, e) && EntrySupported(nfc, f);
    KeyBytesDetermineKey(nfc, e.key, f.key);
    EncodeIsPlainCanon(nfc, e.child);
    EncodeIsPlainCanon(nfc, f.child);
  }

  /** The entry put first among those with its key decides what the canonical map lists first under that key. */
  lemma {:induction false} FirstEntryDecides(nfc: Nfc, e: Entry, f: Entry, rest: seq<Entry>)
    requires EntrySupported(nfc, e) && EntrySupported(nfc, f) && CanonKey(nfc, e.key) == CanonKey(nfc, f.key)
    requires Canon(nfc, Map([e, f] + rest)) == Canon(nfc, Map([f, e] + rest))
    ensures Canon(nfc, e.child) == Canon(nfc, f.child)
  {
    var a, b := [e, f] + rest, [f, e] + rest;
    KeyBytesDetermineKey(nfc, e.key, f.key);
    var key := KeyBytes(nfc, e.key);
    SameCanonHasSameParts(nfc, a, b);
    SortFirst(CanonParts(nfc, a), key);
    SortFirst(CanonParts(nfc, b), key);
    assert FirstWith(CanonParts(nfc, a), key) == [CanonEntry(nfc, e)];
    assert FirstWith(CanonParts(nfc, b), key) == [CanonEntry(nfc, f)];
    assert [CanonEntry(nfc, e)][0] == [CanonEntry(nfc, f)][0];
  }

  lemma {:induction false} ForgottenOrderNeedsAgreement(nfc: Nfc, entries: seq<Entry>, e: Entry, f: Entry)
    requires Supported(nfc, Map(entries)) && OrderForgotten(nfc, entries)
    requires e in entries && f in entries && CanonKey(nfc, e.key) == CanonKey(nfc, f.key)
    ensures Canon(nfc, e.child) == Canon(nfc, f.child)
  {
    if e != f {
      var rest := WithoutPair(entries, e, f);
      assert Reorders([e, f] + rest, entries) && Reorders([f, e] + rest, entries);
      SwappedPairAgrees(nfc, entries, e, f, rest);
    }
  }

  lemma {:induction false} SwappedPairAgrees(nfc: Nfc, entries: seq<Entry>, e: Entry, f: Entry, rest: seq<Entry>)
    requires Supported(nfc, Map(entries)) && CanonKey(nfc, e.key) == CanonKey(nfc, f.key)
    requires multiset([e, f] + rest) == multiset(entries) && multiset([f, e] + rest) == multiset(entries)
    requires Encode(nfc, Map([e, f] + rest)) == Encode(nfc, Map([f, e] + rest))
    ensures Canon(nfc, e.child) == Canon(nfc, f.child)
  {
    var a, b := [e, f] + rest, [f, e] + rest;
    SupportedPermutes(nfc, entries, a);
    SupportedPermutes(nfc, entries, b);
    EncodedAlikeHasSameCanon(nfc, Map(a), Map(b));
    assert EntriesSupported(nfc, a) && EntriesSupported(nfc, b);
    assert a[0] == e && b[0] == f;
    FirstEntryDecides(nfc, e, f, rest);
  }

  lemma {:induction false} EncodedAlikeHasSameCanon(nfc: Nfc, v: Value, w: Value)
    requires Supported(nfc, v) && Supported(nfc, w) && Encode(nfc, v) == Encode(nfc, w)
    ensures Canon(nfc, v) == Canon(nfc, w)
  {
    PrefixFree(nfc, v, w, [], []);
  }

  lemma {:induction false} Without<T>(xs: seq<T>, e: T) returns (rest: seq<T>)
    requires e in xs
    ensures multiset(xs) == multiset(rest) + multiset{e}
  {
    var i :| 0 <= i < |xs| && xs[i] == e;
    rest := xs[..i] + xs[i + 1..];
    assert xs == xs[..i] + [e] + xs[i + 1..];
  }

  lemma {:induction false} WithoutPair<T>(xs: seq<T>, e: T, f: T) returns (rest: seq<T>)
    requires e in xs && f in xs && e != f
    ensures multiset([e, f] + rest) == multiset(xs) && multiset([f, e] + rest) == multiset(xs)
  {
    var ys := Without(xs, e);
    assert f in multiset(xs) && f in multiset(ys);
    rest := Without(ys, f);
  }

  lemma {:induction false} SupportedPermutes(nfc: Nfc, a: seq<Entry>, b: seq<Entry>)
    requires Supported(nfc, Map(a)) && multiset(a) == multiset(b)
    ensures Supported(nfc, Map(b))
  {
    assert |a| == |multiset(a)| == |b|;
    EntriesSupportedMeaning(nfc, a);
    EntriesSupportedMeaning(nfc, b);
    forall e | e in b ensures EntrySupported(nfc, e) {
      assert e in multiset(b) && e in multiset(a);
      assert e in a;
    }
  }

  /** Insertion order is forgotten exactly when colliding keys agree; distinct normalised keys always do. */
  lemma {:induction false} OrderForgottenExactly(nfc: Nfc, entries: seq<Entry>)
    requires Supported(nfc, Map(entries))
    ensures OrderForgotten(nfc, entries) <==> CollisionsAgree(nfc, entries)
  {
    if OrderForgotten(nfc, entries) {
      forall e, f | e in entries && f in entries && CanonKey(nfc, e.key) == CanonKey(nfc, f.key)
        ensures Canon(nfc, e.child) == Canon(nfc, f.child)
      {
        ForgottenOrderNeedsAgreement(nfc, entries, e, f);
      }
    }
    if CollisionsAgree(nfc, entries) {
      forall shuffled | Reorders(shuffled, entries) ensures EncodedAlike(nfc, shuffled, entries)
      {
        AgreeingCollisionsForgetOrder(nfc, entries, shuffled);
      }
    }
  }

  /** Composed and decomposed spellings of one letter as two keys: what is written depends on insertion order. */
  lemma {:induction false} CollidingKeysRememberOrder()
    ensures var nfc: Nfc := s => if s == "e\U{0301}" then "\U{00E9}" else s;
            var entries := [Entry(TextKey("\U{00E9}"), Bool(true)), Entry(TextKey("e\U{0301}"), Bool(false))];
            Supported(nfc, Map(entries)) && !OrderForgotten(nfc, entries)
  {
    var nfc: Nfc := s => if s == "e\U{0301}" then "\U{00E9}" else s;
    var first, second := Entry(TextKey("\U{00E9}"), Bool(true)), Entry(TextKey("e\U{0301}"), Bool(false));
    var entries := [first, second];
    assert nfc("e\U{0301}") == "\U{00E9}" && nfc("\U{00E9}") == "\U{00E9}";
    assert |Utf8("\U{00E9}")| == 2 by { assert "\U{00E9}"[1..] == ""; }
    assert EntrySupported(nfc, first) && EntrySupported(nfc, second);
    EntriesSupportedMeaning(nfc, entries);
    OrderForgottenExactly(nfc, entries);
    assert first in entries && second in entries;
    assert Canon(nfc, first.child) == Bool(true) && Canon(nfc, second.child) == Bool(false);
  }

  // ---------------------------------------------------------------- the value read back

  ghost predicate Idempotent(nfc: Nfc) { forall s :: nfc(nfc(s)) == nfc(s) }

  lemma {:induction false} CanonIsIdempotent(nfc: Nfc, v: Value)
    requires Idempotent(nfc) && Supported(nfc, v)
    ensures Canon(nfc, Canon(nfc, v)) == Canon(nfc, v)
    decreases Nodes(v), 1
  {
    match v {
      case Text(s) =>
      case List(items) => CanonItemsAreFixed(nfc, items);
      case Map(entries) => CanonMapIsFixed(nfc, entries);
      case _ =>
    }
  }

  lemma {:induction false} CanonItemsAreFixed(nfc: Nfc, vs: seq<Value>)
    requires Idempotent(nfc) && ItemsSupported(nfc, vs)
    ensures CanonItems(nfc, CanonItems(nfc, vs)) == CanonItems(nfc, vs)
    decreases NodesOf(vs), 2
  {
    if vs != [] {
      CanonIsIdempotent(nfc, vs[0]);
      CanonItemsAreFixed(nfc, vs[1..]);
      assert CanonItems(nfc, vs)[1..] == CanonItems(nfc, vs[1..]);
    }
  }

  lemma {:induction false} CanonMapIsFixed(nfc: Nfc, entries: seq<Entry>)
    requires Idempotent(nfc) && Supported(nfc, Map(entries))
    ensures Canon(nfc, Canon(nfc, Map(entries))) == Canon(nfc, Map(entries))
    decreases Nodes(Map(entries)), 0
  {
    var keyed := KeyedEntries(nfc, entries);
    ImagesOfKeyedEntries(nfc, entries);
    KeyedEntriesAreWellKeyed(nfc, entries);
    SortWellKeyed(nfc, keyed);
    SortNatural(e => CanonEntry(nfc, e), keyed);
    CanonPartsAreFixed(nfc, Sort(keyed));
    SortOrdered(CanonParts(nfc, entries));
    SortOfOrdered(Sort(CanonParts(nfc, entries)));
  }

  lemma {:induction false} CanonPartsAreFixed(nfc: Nfc, xs: seq<Keyed<Entry>>)
    requires Idempotent(nfc) && WellKeyed(nfc, xs)
    ensures var canon := MapItems(e => CanonEntry(nfc, e), xs);
            CanonParts(nfc, Items(canon)) == canon
    decreases PartNodes(xs), 2
  {
    if xs != [] {
      var entry := xs[0].item;
      var canon := MapItems(e => CanonEntry(nfc, e), xs);
      CanonIsIdempotent(nfc, entry.child);
      CanonPartsAreFixed(nfc, xs[1..]);
      assert canon[1..] == MapItems(e => CanonEntry(nfc, e), xs[1..]);
      assert Items(canon)[1..] == Items(canon[1..]);
      assert KeyBytes(nfc, CanonEntry(nfc, entry).key) == KeyBytes(nfc, entry.key);
      assert CanonEntry(nfc, CanonEntry(nfc, entry)) == CanonEntry(nfc, entry);
    }
  }

  /** Under an idempotent normalisation, as NFC is, what is read back is the value that was written. */
  lemma {:induction false} ReadBackIsSame(nfc: Nfc, v: Value, rest: ByteString)
    requires Idempotent(nfc) && Supported(nfc, v)
    ensures exists w :: Decode(Encode(nfc, v) + rest) == Some((w, rest)) && Same(nfc, v, w)
  {
    RoundTrip(nfc, v, rest);
    CanonIsIdempotent(nfc, v);
    SameCanonIsSame(nfc, v, Canon(nfc, v));
  }
}

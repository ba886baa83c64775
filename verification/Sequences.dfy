/** Permutations, concatenation and the stable sort that the Python sources call as `list.sort(key=...)`. */
module Sequences {
  import opened Bytes

  // ---------------------------------------------------------------- listings and concatenation

  /** Two listings of one multiset: the head of the first can be struck from the second. */
  lemma {:induction false} StrikeHead<T>(a: seq<T>, b: seq<T>) returns (i: nat)
    requires multiset(a) == multiset(b) && a != []
    ensures i < |b| && b[i] == a[0]
    ensures multiset(a[1..]) == multiset(b[..i] + b[i + 1..])
  {
    assert a[0] in multiset(b);
    i :| 0 <= i < |b| && b[i] == a[0];
    StruckOne(b, i);
    StruckHead(a);
  }

  lemma {:induction false} StruckHead<T>(a: seq<T>)
    requires a != []
    ensures multiset(a[1..]) == multiset(a) - multiset{a[0]}
  {
    assert a == [a[0]] + a[1..];
    assert multiset(a) == multiset{a[0]} + multiset(a[1..]);
  }

  lemma {:induction false} StruckOne<T>(b: seq<T>, i: nat)
    requires i < |b|
    ensures multiset(b[..i] + b[i + 1..]) == multiset(b) - multiset{b[i]}
  {
    var rest := b[..i] + b[i + 1..];
    assert b == b[..i] + [b[i]] + b[i + 1..];
    assert multiset(b) == multiset(rest) + multiset{b[i]};
  }

  lemma {:induction false} Associative<T>(a: seq<T>, b: seq<T>, c: seq<T>)
    ensures a + (b + c) == (a + b) + c
  {
  }

  lemma {:induction false} EmptyLeft<T>(a: seq<T>)
    ensures [] + a == a
  {
  }

  lemma {:induction false} EmptyRight<T>(a: seq<T>)
    ensures a + [] == a
  {
  }

  /** The numbers below `n` in order. */
  function Range(n: nat): (r: seq<nat>) {
    if n == 0 then [] else Range(n - 1) + [n - 1]
  }

  lemma {:induction false} RangeAt(n: nat)
    ensures |Range(n)| == n && forall i :: 0 <= i < n ==> Range(n)[i] == i
  {
    if n > 0 {
      RangeAt(n - 1);
    }
  }

  function Flatten<T>(xss: seq<seq<T>>): (r: seq<T>) {
    if xss == [] then [] else xss[0] + Flatten(xss[1..])
  }

  lemma {:induction false} FlattenSnoc<T>(xss: seq<seq<T>>, xs: seq<T>)
    ensures Flatten(xss + [xs]) == Flatten(xss) + xs
  {
    if xss == [] {
      assert [xs][1..] == [];
    } else {
      FlattenSnoc(xss[1..], xs);
      assert (xss + [xs])[1..] == xss[1..] + [xs];
    }
  }

  // ---------------------------------------------------------------- lexicographic order

  /** Python's `<` on `bytes`: first difference decides, a proper prefix is smaller. */
  predicate Less(a: ByteString, b: ByteString) {
    b != [] && (a == [] || a[0] < b[0] || (a[0] == b[0] && Less(a[1..], b[1..])))
  }

  lemma {:induction false} LessIsTotal(a: ByteString, b: ByteString)
    ensures Less(a, b) || Less(b, a) || a == b
  {
    if a != [] && b != [] && a[0] == b[0] {
      LessIsTotal(a[1..], b[1..]);
      assert a == [a[0]] + a[1..] && b == [b[0]] + b[1..];
    }
  }

  lemma {:induction false} LessIsIrreflexive(a: ByteString)
    ensures !Less(a, a)
  {
    if a != [] {
      LessIsIrreflexive(a[1..]);
    }
  }

  lemma {:induction false} LessIsTransitive(a: ByteString, b: ByteString, c: ByteString)
    requires Less(a, b) && Less(b, c)
    ensures Less(a, c)
  {
    if a != [] && a[0] == b[0] == c[0] {
      LessIsTransitive(a[1..], b[1..], c[1..]);
    }
  }

  ghost predicate StrictlyIncreasing(keys: seq<ByteString>) {
    forall i, j :: 0 <= i < j < |keys| ==> Less(keys[i], keys[j])
  }

  /** A set of keys has only one strictly increasing listing. */
  lemma {:induction false} IncreasingListingIsUnique(a: seq<ByteString>, b: seq<ByteString>)
    requires StrictlyIncreasing(a) && StrictlyIncreasing(b)
    requires forall k :: k in a <==> k in b
    ensures a == b
  {
    assert a != [] ==> a[0] in b;
    assert b != [] ==> b[0] in a;
    if a != [] {
      var i :| 0 <= i < |b| && b[i] == a[0];
      var j :| 0 <= j < |a| && a[j] == b[0];
      if i > 0 && j > 0 {
        LessIsTransitive(a[0], b[0], a[0]);
        LessIsIrreflexive(a[0]);
      }
      assert a[0] == b[0];
      forall k ensures k in a[1..] <==> k in b[1..] {
        LessIsIrreflexive(a[0]);
        assert a == [a[0]] + a[1..] && b == [b[0]] + b[1..];
        if k in a[1..] {
          var x :| 1 <= x < |a| && a[x] == k;
          assert Less(a[0], a[x]) && k in b;
        }
        if k in b[1..] {
          var y :| 1 <= y < |b| && b[y] == k;
          assert Less(b[0], b[y]) && k in a;
        }
      }
      IncreasingListingIsUnique(a[1..], b[1..]);
    }
  }

  // ---------------------------------------------------------------- stable sort

  /** `sorted(xs)` under a comparison: of elements neither of which precedes the other the first stays first. */
  function SortBy<T>(less: (T, T) -> bool, xs: seq<T>): (r: seq<T>)
    ensures |r| == |xs|
  {
    if xs == [] then [] else InsertBy(less, xs[0], SortBy(less, xs[1..]))
  }

  function InsertBy<T>(less: (T, T) -> bool, x: T, xs: seq<T>): (r: seq<T>)
    ensures |r| == |xs| + 1
  {
    if xs == [] || !less(xs[0], x) then [x] + xs else [xs[0]] + InsertBy(less, x, xs[1..])
  }

  /** What a comparison must satisfy for sorting to order: being not less is transitive, being less is one-sided. */
  ghost predicate IsOrder<T(!new)>(less: (T, T) -> bool) {
    && (forall x, y :: less(x, y) ==> !less(y, x))
    && (forall x, y, z :: !less(x, y) && !less(y, z) ==> !less(x, z))
  }

  ghost predicate OrderedBy<T>(less: (T, T) -> bool, xs: seq<T>) {
    forall i, j :: 0 <= i < j < |xs| ==> !less(xs[j], xs[i])
  }

  /** Elements neither of which precedes the other are the same. */
  ghost predicate SeparatedBy<T(!new)>(less: (T, T) -> bool, xs: seq<T>) {
    forall x, y :: x in xs && y in xs && !less(x, y) && !less(y, x) ==> x == y
  }

  lemma {:induction false} InsertByMultiset<T>(less: (T, T) -> bool, x: T, xs: seq<T>)
    ensures multiset(InsertBy(less, x, xs)) == multiset{x} + multiset(xs)
  {
    if !(xs == [] || !less(xs[0], x)) {
      InsertByMultiset(less, x, xs[1..]);
      assert xs == [xs[0]] + xs[1..];
    }
  }

  lemma {:induction false} SortByMultiset<T>(less: (T, T) -> bool, xs: seq<T>)
    ensures multiset(SortBy(less, xs)) == multiset(xs)
  {
    if xs != [] {
      SortByMultiset(less, xs[1..]);
      InsertByMultiset(less, xs[0], SortBy(less, xs[1..]));
      assert xs == [xs[0]] + xs[1..];
    }
  }

  lemma {:induction false} SortByMember<T>(less: (T, T) -> bool, xs: seq<T>, x: T)
    ensures x in SortBy(less, xs) <==> x in xs
  {
    SortByMultiset(less, xs);
    assert x in SortBy(less, xs) <==> x in multiset(SortBy(less, xs));
    assert x in xs <==> x in multiset(xs);
  }

  lemma {:induction false} InsertByOrdered<T(!new)>(less: (T, T) -> bool, x: T, xs: seq<T>)
    requires IsOrder(less) && OrderedBy(less, xs)
    ensures OrderedBy(less, InsertBy(less, x, xs))
  {
    var r := InsertBy(less, x, xs);
    if xs == [] || !less(xs[0], x) {
      forall j | 0 <= j < |xs| ensures !less(xs[j], x) {
        if j > 0 {
          assert !less(xs[j], xs[0]) && !less(xs[0], x);
        }
      }
    } else {
      InsertByOrdered(less, x, xs[1..]);
      InsertByMultiset(less, x, xs[1..]);
      forall j | 1 <= j < |r| ensures !less(r[j], xs[0]) {
        assert r[j] in multiset(InsertBy(less, x, xs[1..]));
        if r[j] != x {
          assert r[j] in xs[1..];
        }
      }
    }
  }

  lemma {:induction false} SortByOrdered<T(!new)>(less: (T, T) -> bool, xs: seq<T>)
    requires IsOrder(less)
    ensures OrderedBy(less, SortBy(less, xs))
  {
    if xs != [] {
      SortByOrdered(less, xs[1..]);
      InsertByOrdered(less, xs[0], SortBy(less, xs[1..]));
    }
  }

  lemma {:induction false} HeadsAgree<T(!new)>(less: (T, T) -> bool, xs: seq<T>, ys: seq<T>)
    requires IsOrder(less) && OrderedBy(less, xs) && OrderedBy(less, ys) && SeparatedBy(less, xs)
    requires xs != [] && ys != [] && xs[0] in ys && ys[0] in xs
    ensures xs[0] == ys[0]
  {
    var i :| 0 <= i < |ys| && ys[i] == xs[0];
    var j :| 0 <= j < |xs| && xs[j] == ys[0];
    if i > 0 && j > 0 {
      assert !less(ys[i], ys[0]) && !less(xs[j], xs[0]);
    }
  }

  /** An ordered listing of separated elements is the only one. */
  lemma {:induction false} OrderedByIsUnique<T(!new)>(less: (T, T) -> bool, xs: seq<T>, ys: seq<T>)
    requires IsOrder(less) && OrderedBy(less, xs) && OrderedBy(less, ys) && SeparatedBy(less, xs)
    requires multiset(xs) == multiset(ys)
    ensures xs == ys
  {
    assert |xs| == |multiset(xs)| == |multiset(ys)| == |ys|;
    if xs != [] {
      assert xs[0] in multiset(ys) && ys[0] in multiset(xs);
      HeadsAgree(less, xs, ys);
      TailMultisets(xs, ys);
      TailSeparated(less, xs);
      OrderedByIsUnique(less, xs[1..], ys[1..]);
    }
  }

  lemma {:induction false} TailSeparated<T(!new)>(less: (T, T) -> bool, xs: seq<T>)
    requires SeparatedBy(less, xs) && xs != []
    ensures SeparatedBy(less, xs[1..])
  {
    forall x | x in xs[1..] ensures x in xs {}
  }

  /** Sorting forgets how separated elements were listed. */
  lemma {:induction false} SortByForgetsListing<T(!new)>(less: (T, T) -> bool, xs: seq<T>, ys: seq<T>)
    requires IsOrder(less) && SeparatedBy(less, xs) && multiset(xs) == multiset(ys)
    ensures SortBy(less, xs) == SortBy(less, ys)
  {
    SortByOrdered(less, xs);
    SortByOrdered(less, ys);
    SortByMultiset(less, xs);
    SortByMultiset(less, ys);
    forall x ensures x in SortBy(less, xs) <==> x in xs {
      SortByMember(less, xs, x);
    }
    OrderedByIsUnique(less, SortBy(less, xs), SortBy(less, ys));
  }

  // ---------------------------------------------------------------- sorting by a key

  datatype Keyed<T> = Keyed(key: ByteString, item: T)

  function ByKey<T>(): (r: (Keyed<T>, Keyed<T>) -> bool) { (a: Keyed<T>, b: Keyed<T>) => Less(a.key, b.key) }

  function Insert<T>(x: Keyed<T>, xs: seq<Keyed<T>>): (r: seq<Keyed<T>>)
    ensures |r| == |xs| + 1
  {
    InsertBy(ByKey(), x, xs)
  }

  /** `list.sort(key=...)`: equal keys keep their order. */
  function Sort<T>(xs: seq<Keyed<T>>): (r: seq<Keyed<T>>)
    ensures |r| == |xs|
  {
    SortBy(ByKey(), xs)
  }

  function MapItems<T, U>(f: T -> U, xs: seq<Keyed<T>>): (r: seq<Keyed<U>>)
    ensures |r| == |xs|
  {
    if xs == [] then [] else [Keyed(xs[0].key, f(xs[0].item))] + MapItems(f, xs[1..])
  }

  lemma {:induction false} InsertNatural<T, U>(f: T -> U, x: Keyed<T>, xs: seq<Keyed<T>>)
    ensures MapItems(f, Insert(x, xs)) == Insert(Keyed(x.key, f(x.item)), MapItems(f, xs))
  {
    var r := Insert(x, xs);
    if xs == [] || !Less(xs[0].key, x.key) {
      assert r[1..] == xs;
    } else {
      InsertNatural(f, x, xs[1..]);
      assert r[1..] == Insert(x, xs[1..]);
      assert MapItems(f, xs)[1..] == MapItems(f, xs[1..]);
    }
  }

  /** Sorting looks at keys only: it commutes with any rewrite of what the keys carry. */
  lemma {:induction false} SortNatural<T, U>(f: T -> U, xs: seq<Keyed<T>>)
    ensures MapItems(f, Sort(xs)) == Sort(MapItems(f, xs))
  {
    if xs != [] {
      SortNatural(f, xs[1..]);
      InsertNatural(f, xs[0], Sort(xs[1..]));
      assert MapItems(f, xs)[1..] == MapItems(f, xs[1..]);
    }
  }

  lemma {:induction false} SortMultiset<T>(xs: seq<Keyed<T>>)
    ensures multiset(Sort(xs)) == multiset(xs)
  {
    SortByMultiset(ByKey(), xs);
  }

  lemma {:induction false} NotLessIsTransitive(a: ByteString, b: ByteString, c: ByteString)
    requires !Less(a, b) && !Less(b, c)
    ensures !Less(a, c)
  {
    LessIsTotal(a, b);
    LessIsTotal(b, c);
    if Less(a, c) {
      if Less(b, a) {
        LessIsTransitive(b, a, c);
      }
    }
  }

  lemma {:induction false} LessIsOneSided(a: ByteString, b: ByteString)
    requires Less(a, b)
    ensures !Less(b, a)
  {
    if Less(b, a) {
      LessIsTransitive(a, b, a);
      LessIsIrreflexive(a);
    }
  }

  lemma {:induction false} ByKeyIsOrder<T(!new)>()
    ensures IsOrder(ByKey<T>())
  {
    var less := ByKey<T>();
    forall x, y | less(x, y) ensures !less(y, x) {
      LessIsOneSided(x.key, y.key);
    }
    forall x, y, z | !less(x, y) && !less(y, z) ensures !less(x, z) {
      NotLessIsTransitive(x.key, y.key, z.key);
    }
  }

  /** No key is smaller than one listed before it. */
  ghost predicate Ordered<T>(xs: seq<Keyed<T>>) {
    forall i, j :: 0 <= i < j < |xs| ==> !Less(xs[j].key, xs[i].key)
  }

  lemma {:induction false} SortOrdered<T(!new)>(xs: seq<Keyed<T>>)
    ensures Ordered(Sort(xs))
  {
    ByKeyIsOrder<T>();
    SortByOrdered(ByKey(), xs);
    forall i, j | 0 <= i < j < |xs| ensures !Less(Sort(xs)[j].key, Sort(xs)[i].key) {
      assert !ByKey<T>()(Sort(xs)[j], Sort(xs)[i]);
    }
  }

  function KeyCount<T>(xs: seq<Keyed<T>>, key: ByteString): (r: nat) {
    if xs == [] then 0 else (if xs[0].key == key then 1 else 0) + KeyCount(xs[1..], key)
  }

  predicate DistinctKeyed<T>(xs: seq<Keyed<T>>) {
    xs == [] || (KeyCount(xs[1..], xs[0].key) == 0 && DistinctKeyed(xs[1..]))
  }

  lemma {:induction false} KeyCountMeaning<T>(xs: seq<Keyed<T>>, key: ByteString)
    ensures KeyCount(xs, key) == 0 <==> forall i :: 0 <= i < |xs| ==> xs[i].key != key
  {
    if xs != [] {
      KeyCountMeaning(xs[1..], key);
      assert forall i :: 1 <= i < |xs| ==> xs[i] == xs[1..][i - 1];
    }
  }

  lemma {:induction false} DistinctKeyedMeaning<T>(xs: seq<Keyed<T>>)
    ensures DistinctKeyed(xs) <==> forall i, j :: 0 <= i < j < |xs| ==> xs[i].key != xs[j].key
  {
    if xs != [] {
      KeyCountMeaning(xs[1..], xs[0].key);
      DistinctKeyedMeaning(xs[1..]);
      assert forall i :: 1 <= i < |xs| ==> xs[i] == xs[1..][i - 1];
      assert forall i :: 0 <= i < |xs| - 1 ==> xs[1..][i] == xs[i + 1];
    }
  }

  lemma {:induction false} InsertKeyCount<T>(x: Keyed<T>, xs: seq<Keyed<T>>, key: ByteString)
    ensures KeyCount(Insert(x, xs), key) == (if x.key == key then 1 else 0) + KeyCount(xs, key)
  {
    var r := Insert(x, xs);
    if xs == [] || !Less(xs[0].key, x.key) {
      assert r[1..] == xs;
    } else {
      InsertKeyCount(x, xs[1..], key);
      assert r[1..] == Insert(x, xs[1..]);
    }
  }

  lemma {:induction false} InsertDistinct<T>(x: Keyed<T>, xs: seq<Keyed<T>>)
    ensures DistinctKeyed(Insert(x, xs)) <==> KeyCount(xs, x.key) == 0 && DistinctKeyed(xs)
  {
    var r := Insert(x, xs);
    if xs == [] || !Less(xs[0].key, x.key) {
      assert r[1..] == xs;
    } else {
      LessIsIrreflexive(x.key);
      InsertDistinct(x, xs[1..]);
      InsertKeyCount(x, xs[1..], xs[0].key);
      assert r[1..] == Insert(x, xs[1..]);
    }
  }

  lemma {:induction false} SortDistinct<T>(xs: seq<Keyed<T>>)
    ensures DistinctKeyed(Sort(xs)) <==> DistinctKeyed(xs)
    ensures forall key :: KeyCount(Sort(xs), key) == KeyCount(xs, key)
  {
    if xs != [] {
      SortDistinct(xs[1..]);
      InsertDistinct(xs[0], Sort(xs[1..]));
      forall key ensures KeyCount(Sort(xs), key) == KeyCount(xs, key) {
        InsertKeyCount(xs[0], Sort(xs[1..]), key);
      }
    }
  }

  /** A sorted list strictly increases exactly when no key was repeated. */
  lemma {:induction false} SortIncreases<T(!new)>(xs: seq<Keyed<T>>)
    ensures StrictlyIncreasing(KeysOf(Sort(xs))) <==> DistinctKeyed(xs)
  {
    var sorted := Sort(xs);
    SortOrdered(xs);
    SortDistinct(xs);
    DistinctKeyedMeaning(sorted);
    forall i, j | 0 <= i < j < |sorted|
      ensures Less(KeysOf(sorted)[i], KeysOf(sorted)[j]) <==> sorted[i].key != sorted[j].key
    {
      LessIsTotal(sorted[i].key, sorted[j].key);
      LessIsIrreflexive(sorted[i].key);
    }
    if StrictlyIncreasing(KeysOf(sorted)) {
      forall i, j | 0 <= i < j < |sorted| ensures sorted[i].key != sorted[j].key {
        assert Less(KeysOf(sorted)[i], KeysOf(sorted)[j]);
      }
    }
  }

  function KeysOf<T>(xs: seq<Keyed<T>>): (r: seq<ByteString>) {
    seq(|xs|, i requires 0 <= i < |xs| => xs[i].key)
  }

  /** The item carried by the first occurrence of a key. */
  function FirstWith<T>(xs: seq<Keyed<T>>, key: ByteString): (r: seq<T>)
    ensures |r| <= 1
  {
    if xs == [] then [] else if xs[0].key == key then [xs[0].item] else FirstWith(xs[1..], key)
  }

  lemma {:induction false} InsertFirst<T>(x: Keyed<T>, xs: seq<Keyed<T>>, key: ByteString)
    ensures FirstWith(Insert(x, xs), key) == if x.key == key then [x.item] else FirstWith(xs, key)
  {
    var r := Insert(x, xs);
    if xs == [] || !Less(xs[0].key, x.key) {
      assert r[1..] == xs;
    } else {
      InsertFirst(x, xs[1..], key);
      assert r[1..] == Insert(x, xs[1..]);
      LessIsIrreflexive(x.key);
    }
  }

  /** Stability: the first occurrence of every key stays first. */
  lemma {:induction false} SortFirst<T>(xs: seq<Keyed<T>>, key: ByteString)
    ensures FirstWith(Sort(xs), key) == FirstWith(xs, key)
  {
    if xs != [] {
      SortFirst(xs[1..], key);
      InsertFirst(xs[0], Sort(xs[1..]), key);
    }
  }

  lemma {:induction false} SortMember<T>(xs: seq<Keyed<T>>, x: Keyed<T>)
    ensures x in Sort(xs) <==> x in xs
  {
    SortMultiset(xs);
    assert x in Sort(xs) <==> x in multiset(Sort(xs));
    assert x in xs <==> x in multiset(xs);
  }

  lemma {:induction false} SortedKeyMember<T>(xs: seq<Keyed<T>>, key: ByteString)
    ensures key in KeysOf(Sort(xs)) <==> exists x :: x in xs && x.key == key
  {
    var sorted := Sort(xs);
    if key in KeysOf(sorted) {
      var k :| 0 <= k < |KeysOf(sorted)| && KeysOf(sorted)[k] == key;
      SortMember(xs, sorted[k]);
    }
    if x :| x in xs && x.key == key {
      SortMember(xs, x);
      var k :| 0 <= k < |sorted| && sorted[k] == x;
      assert KeysOf(sorted)[k] == key;
    }
  }

  /** Lists with the same members and no repeated key sort to the same list. */
  lemma {:induction false} SortForgetsOrder<T(!new)>(xs: seq<Keyed<T>>, ys: seq<Keyed<T>>)
    requires DistinctKeyed(xs) && DistinctKeyed(ys)
    requires forall x :: x in xs <==> x in ys
    ensures Sort(xs) == Sort(ys)
  {
    var a, b := Sort(xs), Sort(ys);
    SortIncreases(xs);
    SortIncreases(ys);
    forall key ensures key in KeysOf(a) <==> key in KeysOf(b) {
      SortedKeyMember(xs, key);
      SortedKeyMember(ys, key);
    }
    IncreasingListingIsUnique(KeysOf(a), KeysOf(b));
    assert |a| == |KeysOf(a)| == |b|;
    forall k | 0 <= k < |a| ensures a[k] == b[k] {
      assert a[k] in a;
      SortMember(xs, a[k]);
      SortMember(ys, a[k]);
      var m :| 0 <= m < |b| && b[m] == a[k];
      assert KeysOf(b)[m] == KeysOf(b)[k] by { assert KeysOf(a)[k] == a[k].key; }
      LessIsIrreflexive(KeysOf(b)[k]);
      assert m == k;
    }
  }

  lemma {:induction false} TailMultisets<T>(xs: seq<T>, ys: seq<T>)
    requires xs != [] && ys != [] && xs[0] == ys[0] && multiset(xs) == multiset(ys)
    ensures multiset(xs[1..]) == multiset(ys[1..])
  {
    assert xs == [xs[0]] + xs[1..] && ys == [ys[0]] + ys[1..];
    assert multiset(xs) == multiset{xs[0]} + multiset(xs[1..]);
    assert multiset(ys) == multiset{xs[0]} + multiset(ys[1..]);
    assert multiset(xs[1..]) == multiset(xs) - multiset{xs[0]};
    assert multiset(ys[1..]) == multiset(ys) - multiset{xs[0]};
  }

  lemma {:induction false} OrderedHeads<T>(xs: seq<Keyed<T>>, ys: seq<Keyed<T>>)
    requires Ordered(xs) && Ordered(ys) && xs != [] && ys != []
    requires xs[0] in ys && ys[0] in xs
    ensures xs[0].key == ys[0].key
  {
    var i :| 0 <= i < |ys| && ys[i] == xs[0];
    var j :| 0 <= j < |xs| && xs[j] == ys[0];
    LessIsTotal(xs[0].key, ys[0].key);
    LessIsIrreflexive(xs[0].key);
    LessIsIrreflexive(ys[0].key);
    assert !Less(ys[i].key, ys[0].key) && !Less(xs[j].key, xs[0].key);
  }

  /** An ordered listing is determined by its members when equal keys carry equal items. */
  lemma {:induction false} OrderedListingIsUnique<T>(xs: seq<Keyed<T>>, ys: seq<Keyed<T>>)
    requires Ordered(xs) && Ordered(ys) && multiset(xs) == multiset(ys)
    requires forall x, y :: x in xs && y in xs && x.key == y.key ==> x == y
    ensures xs == ys
  {
    assert |xs| == |multiset(xs)| == |multiset(ys)| == |ys|;
    if xs != [] {
      assert xs[0] in multiset(ys) && ys[0] in multiset(xs);
      OrderedHeads(xs, ys);
      TailMultisets(xs, ys);
      forall x | x in xs[1..] ensures x in xs {}
      OrderedListingIsUnique(xs[1..], ys[1..]);
    }
  }

  lemma {:induction false} SortOfOrdered<T>(xs: seq<Keyed<T>>)
    requires Ordered(xs)
    ensures Sort(xs) == xs
  {
    if xs != [] {
      SortOfOrdered(xs[1..]);
      assert xs == [xs[0]] + xs[1..];
    }
  }
}

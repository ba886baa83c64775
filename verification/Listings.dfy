/** Mapped, filtered and counted listings, and when two listings are permutations of each other. */
module Listings {
  import opened Sequences

  function Map<T, U>(f: T -> U, xs: seq<T>): (r: seq<U>)
    ensures |r| == |xs|
  {
    if xs == [] then [] else [f(xs[0])] + Map(f, xs[1..])
  }

  function Filter<T>(p: T -> bool, xs: seq<T>): (r: seq<T>) {
    if xs == [] then [] else (if p(xs[0]) then [xs[0]] else []) + Filter(p, xs[1..])
  }

  /** The sum of a weight over a listing. */
  function Tally<T>(f: T -> int, xs: seq<T>): (r: int) {
    if xs == [] then 0 else f(xs[0]) + Tally(f, xs[1..])
  }

  predicate NoRepeats<T(==)>(xs: seq<T>) {
    xs == [] || (xs[0] !in xs[1..] && NoRepeats(xs[1..]))
  }

  // ---------------------------------------------------------------- membership

  lemma {:induction false} MapAt<T, U>(f: T -> U, xs: seq<T>, i: nat)
    requires i < |xs|
    ensures Map(f, xs)[i] == f(xs[i])
  {
    if i > 0 {
      MapAt(f, xs[1..], i - 1);
    }
  }

  lemma {:induction false} MapMember<T, U>(f: T -> U, xs: seq<T>, y: U)
    ensures y in Map(f, xs) <==> exists x :: x in xs && f(x) == y
  {
    if y in Map(f, xs) {
      var i :| 0 <= i < |xs| && Map(f, xs)[i] == y;
      MapAt(f, xs, i);
      assert xs[i] in xs;
    }
    if x :| x in xs && f(x) == y {
      var i :| 0 <= i < |xs| && xs[i] == x;
      MapAt(f, xs, i);
    }
  }

  lemma {:induction false} FilterMember<T>(p: T -> bool, xs: seq<T>, x: T)
    ensures x in Filter(p, xs) <==> x in xs && p(x)
  {
    if xs != [] {
      FilterMember(p, xs[1..], x);
      assert xs == [xs[0]] + xs[1..];
    }
  }

  // ---------------------------------------------------------------- concatenation

  lemma {:induction false} MapConcat<T, U>(f: T -> U, a: seq<T>, b: seq<T>)
    ensures Map(f, a + b) == Map(f, a) + Map(f, b)
  {
    if a == [] {
      assert a + b == b;
    } else {
      MapConcat(f, a[1..], b);
      assert (a + b)[1..] == a[1..] + b;
      Associative([f(a[0])], Map(f, a[1..]), Map(f, b));
    }
  }

  lemma {:induction false} MapSnoc<T, U>(f: T -> U, xs: seq<T>, i: nat)
    requires i < |xs|
    ensures Map(f, xs[..i + 1]) == Map(f, xs[..i]) + [f(xs[i])]
  {
    assert xs[..i + 1] == xs[..i] + [xs[i]];
    MapConcat(f, xs[..i], [xs[i]]);
    assert Map(f, [xs[i]]) == [f(xs[i])] + Map(f, [xs[i]][1..]);
  }

  lemma {:induction false} FilterConcat<T>(p: T -> bool, a: seq<T>, b: seq<T>)
    ensures Filter(p, a + b) == Filter(p, a) + Filter(p, b)
  {
    if a == [] {
      assert a + b == b;
    } else {
      FilterConcat(p, a[1..], b);
      assert (a + b)[1..] == a[1..] + b;
      Associative(if p(a[0]) then [a[0]] else [], Filter(p, a[1..]), Filter(p, b));
    }
  }

  lemma {:induction false} TallyConcat<T>(f: T -> int, a: seq<T>, b: seq<T>)
    ensures Tally(f, a + b) == Tally(f, a) + Tally(f, b)
  {
    if a == [] {
      assert a + b == b;
    } else {
      TallyConcat(f, a[1..], b);
      assert (a + b)[1..] == a[1..] + b;
    }
  }

  // ---------------------------------------------------------------- permutations

  lemma {:induction false} TallyPermutation<T>(f: T -> int, a: seq<T>, b: seq<T>)
    requires multiset(a) == multiset(b)
    ensures Tally(f, a) == Tally(f, b)
  {
    if a == [] {
      assert |b| == |multiset(b)| == 0;
    } else {
      var i := StrikeHead(a, b);
      TallyPermutation(f, a[1..], b[..i] + b[i + 1..]);
      assert b == b[..i] + ([b[i]] + b[i + 1..]);
      TallyConcat(f, b[..i], b[i + 1..]);
      TallyConcat(f, b[..i], [b[i]] + b[i + 1..]);
      TallyConcat(f, [b[i]], b[i + 1..]);
    }
  }

  lemma {:induction false} MapPermutation<T, U>(f: T -> U, a: seq<T>, b: seq<T>)
    requires multiset(a) == multiset(b)
    ensures multiset(Map(f, a)) == multiset(Map(f, b))
  {
    if a == [] {
      assert |b| == |multiset(b)| == 0;
    } else {
      var i := StrikeHead(a, b);
      MapPermutation(f, a[1..], b[..i] + b[i + 1..]);
      assert b == b[..i] + ([b[i]] + b[i + 1..]);
      MapConcat(f, b[..i], b[i + 1..]);
      MapConcat(f, b[..i], [b[i]] + b[i + 1..]);
      MapConcat(f, [b[i]], b[i + 1..]);
    }
  }

  lemma {:induction false} NoRepeatsCount<T>(xs: seq<T>, x: T)
    requires NoRepeats(xs)
    ensures multiset(xs)[x] == if x in xs then 1 else 0
  {
    if xs != [] {
      NoRepeatsCount(xs[1..], x);
      assert xs == [xs[0]] + xs[1..];
      assert multiset(xs) == multiset{xs[0]} + multiset(xs[1..]);
    }
  }

  /** Repetition-free listings of the same elements are permutations of each other. */
  lemma {:induction false} SameElements<T>(a: seq<T>, b: seq<T>)
    requires NoRepeats(a) && NoRepeats(b)
    requires forall x :: x in a <==> x in b
    ensures multiset(a) == multiset(b)
  {
    forall x ensures multiset(a)[x] == multiset(b)[x] {
      NoRepeatsCount(a, x);
      NoRepeatsCount(b, x);
    }
  }

  lemma {:induction false} PermutationNoRepeats<T>(a: seq<T>, b: seq<T>)
    requires multiset(a) == multiset(b) && NoRepeats(a)
    ensures NoRepeats(b)
  {
    if b != [] {
      assert b == [b[0]] + b[1..];
      assert multiset(b) == multiset{b[0]} + multiset(b[1..]);
      NoRepeatsCount(a, b[0]);
      var i := StrikeHead(b, a);
      RemoveNoRepeats(a, i);
      PermutationNoRepeats(a[..i] + a[i + 1..], b[1..]);
    }
  }

  lemma {:induction false} RemoveNoRepeats<T>(a: seq<T>, i: nat)
    requires NoRepeats(a) && i < |a|
    ensures NoRepeats(a[..i] + a[i + 1..])
  {
    if i == 0 {
      assert a[..0] + a[1..] == a[1..];
    } else {
      RemoveNoRepeats(a[1..], i - 1);
      var rest := a[..i] + a[i + 1..];
      assert rest[1..] == a[1..][..i - 1] + a[1..][i..];
    }
  }

  /** Elements of a listing whose image is repetition-free are determined by their image. */
  lemma {:induction false} ImageDetermines<T, U>(f: T -> U, xs: seq<T>, x: T, y: T)
    requires NoRepeats(Map(f, xs)) && x in xs && y in xs && f(x) == f(y)
    ensures x == y
  {
    if x == xs[0] || y == xs[0] {
      var z := if x == xs[0] then y else x;
      if z != xs[0] {
        assert z in xs[1..];
        MapMember(f, xs[1..], f(z));
      }
    } else {
      ImageDetermines(f, xs[1..], x, y);
    }
  }

  lemma {:induction false} NoRepeatsImage<T, U>(f: T -> U, xs: seq<T>)
    requires NoRepeats(Map(f, xs))
    ensures NoRepeats(xs)
  {
    if xs != [] {
      NoRepeatsImage(f, xs[1..]);
      MapMember(f, xs[1..], f(xs[0]));
    }
  }

  // ---------------------------------------------------------------- repetition-free concatenations

  lemma {:induction false} ConcatNoRepeats<T>(a: seq<T>, b: seq<T>)
    requires NoRepeats(a) && NoRepeats(b) && forall x :: x in a ==> x !in b
    ensures NoRepeats(a + b)
  {
    if a == [] {
      assert a + b == b;
    } else {
      ConcatNoRepeats(a[1..], b);
      assert (a + b)[1..] == a[1..] + b;
    }
  }

  lemma {:induction false} NoRepeatsPrefix<T>(a: seq<T>, b: seq<T>)
    requires NoRepeats(a + b)
    ensures NoRepeats(a) && NoRepeats(b) && forall x :: x in a ==> x !in b
  {
    if a == [] {
      assert a + b == b;
    } else {
      assert (a + b)[1..] == a[1..] + b;
      NoRepeatsPrefix(a[1..], b);
      assert forall x :: x in b ==> x in (a + b)[1..];
    }
  }

  /** One pass that looks for each image among those before it decides whether any repeats. */
  lemma {:induction false} SeenImage<T, U>(f: T -> U, xs: seq<T>, i: nat)
    requires i < |xs| && NoRepeats(Map(f, xs[..i]))
    ensures Map(f, xs[..i + 1]) == Map(f, xs[..i]) + [f(xs[i])]
    ensures NoRepeats(Map(f, xs[..i + 1])) <==> f(xs[i]) !in Map(f, xs[..i])
    ensures f(xs[i]) in Map(f, xs[..i]) ==> !NoRepeats(Map(f, xs))
  {
    MapSnoc(f, xs, i);
    assert NoRepeats([f(xs[i])]);
    if f(xs[i]) in Map(f, xs[..i]) {
      RepeatedImage(f, xs, i);
      if NoRepeats(Map(f, xs[..i]) + [f(xs[i])]) {
        NoRepeatsPrefix(Map(f, xs[..i]), [f(xs[i])]);
      }
    } else {
      ConcatNoRepeats(Map(f, xs[..i]), [f(xs[i])]);
    }
  }

  lemma {:induction false} RepeatedImage<T, U>(f: T -> U, xs: seq<T>, i: nat)
    requires i < |xs| && f(xs[i]) in Map(f, xs[..i])
    ensures !NoRepeats(Map(f, xs))
  {
    assert xs == xs[..i] + xs[i..];
    MapConcat(f, xs[..i], xs[i..]);
    assert Map(f, xs[i..])[0] == f(xs[i]);
    if NoRepeats(Map(f, xs)) {
      NoRepeatsPrefix(Map(f, xs[..i]), Map(f, xs[i..]));
    }
  }
}

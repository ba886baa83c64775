/** The overlapping chunk scan of benches/cigarbench/cigarbench.py and demos/run.py against whole-file search. */
module CanaryScan {
  import opened Bytes
  import opened Sequences

  /** A contiguous occurrence at a position. */
  predicate OccursAt(needle: ByteString, hay: ByteString, k: nat) {
    k + |needle| <= |hay| && hay[k..k + |needle|] == needle
  }

  ghost predicate Occurs(needle: ByteString, hay: ByteString) {
    exists k: nat :: OccursAt(needle, hay, k)
  }

  ghost predicate AnyOccurs(needles: seq<ByteString>, hay: ByteString) {
    exists i :: 0 <= i < |needles| && Occurs(needles[i], hay)
  }

  /** Substring search by position. */
  method Find(needle: ByteString, hay: ByteString) returns (found: bool)
    ensures found <==> Occurs(needle, hay)
  {
    var k := 0;
    while k + |needle| <= |hay|
      invariant forall j: nat :: j < k ==> !OccursAt(needle, hay, j)
    {
      if hay[k..k + |needle|] == needle {
        assert OccursAt(needle, hay, k);
        return true;
      }
      k := k + 1;
    }
    return false;
  }

  method FindAny(needles: seq<ByteString>, hay: ByteString) returns (found: bool)
    ensures found <==> AnyOccurs(needles, hay)
  {
    for i := 0 to |needles|
      invariant forall j :: 0 <= j < i ==> !Occurs(needles[j], hay)
    {
      found := Find(needles[i], hay);
      if found {
        return true;
      }
    }
    return false;
  }

  /** One less than the longest needle. */
  function Overlap(needles: seq<ByteString>): (r: int) {
    if needles == [] then 0 else
      var before, last := Overlap(needles[..|needles| - 1]), |needles[|needles| - 1]| - 1;
      if before > last then before else last
  }

  lemma {:induction false} OverlapCovers(needles: seq<ByteString>, i: nat)
    requires i < |needles|
    ensures |needles[i]| - 1 <= Overlap(needles) && Overlap(needles) >= 0
  {
    if i < |needles| - 1 {
      OverlapCovers(needles[..|needles| - 1], i);
    } else if |needles| > 1 {
      OverlapCovers(needles[..|needles| - 1], 0);
    }
  }

  lemma {:induction false} OverlapNatural(needles: seq<ByteString>)
    ensures Overlap(needles) >= 0
  {
    if needles != [] {
      OverlapCovers(needles, 0);
    }
  }

  /** The end of what has been read, at most `overlap` bytes of it. */
  function TailOf(payload: ByteString, overlap: nat): (r: ByteString) {
    if overlap == 0 then [] else if |payload| <= overlap then payload else payload[|payload| - overlap..]
  }

  lemma {:induction false} TailOfTail(done: ByteString, chunk: ByteString, overlap: nat)
    ensures TailOf(TailOf(done, overlap) + chunk, overlap) == TailOf(done + chunk, overlap)
  {
  }

  /** An occurrence in the longer text is an old one, or lies in the tail and the new chunk. */
  lemma {:induction false} NewOccurrence(needle: ByteString, done: ByteString, chunk: ByteString, overlap: nat)
    requires 0 < |needle| <= overlap + 1
    ensures Occurs(needle, done + chunk) <==> Occurs(needle, done) || Occurs(needle, TailOf(done, overlap) + chunk)
  {
    var whole, tail := done + chunk, TailOf(done, overlap);
    var payload := tail + chunk;
    var skipped := |done| - |tail|;
    assert payload == whole[skipped..];
    if Occurs(needle, whole) {
      var k: nat :| OccursAt(needle, whole, k);
      if k + |needle| <= |done| {
        assert done[k..k + |needle|] == whole[k..k + |needle|];
        assert OccursAt(needle, done, k);
      } else {
        assert skipped <= k;
        assert payload[k - skipped..k - skipped + |needle|] == whole[k..k + |needle|];
        assert OccursAt(needle, payload, k - skipped);
      }
    }
    if Occurs(needle, done) {
      var k: nat :| OccursAt(needle, done, k);
      assert whole[k..k + |needle|] == done[k..k + |needle|];
      assert OccursAt(needle, whole, k);
    }
    if Occurs(needle, payload) {
      var k: nat :| OccursAt(needle, payload, k);
      assert whole[k + skipped..k + skipped + |needle|] == payload[k..k + |needle|];
      assert OccursAt(needle, whole, k + skipped);
    }
  }

  predicate Sized(needles: seq<ByteString>) {
    forall i :: 0 <= i < |needles| ==> 0 < |needles[i]|
  }

  lemma {:induction false} NewOccurrences(needles: seq<ByteString>, done: ByteString, chunk: ByteString, overlap: nat)
    requires Sized(needles) && overlap == Overlap(needles)
    ensures AnyOccurs(needles, done + chunk) <==>
            AnyOccurs(needles, done) || AnyOccurs(needles, TailOf(done, overlap) + chunk)
  {
    forall i | 0 <= i < |needles|
      ensures Occurs(needles[i], done + chunk) <==>
              Occurs(needles[i], done) || Occurs(needles[i], TailOf(done, overlap) + chunk)
    {
      OverlapCovers(needles, i);
      NewOccurrence(needles[i], done, chunk, overlap);
    }
  }

  /** Reading chunk by chunk with an overlapping tail finds exactly what is in the whole file. */
  method ScanFile(needles: seq<ByteString>, chunks: seq<ByteString>) returns (found: bool)
    requires Sized(needles)
    ensures found <==> AnyOccurs(needles, Flatten(chunks))
  {
    OverlapNatural(needles);
    var overlap: nat := Overlap(needles);
    var tail: ByteString := [];
    assert chunks[..0] == [];
    NothingOccurs(needles);
    for i := 0 to |chunks|
      invariant tail == TailOf(Flatten(chunks[..i]), overlap)
      invariant !AnyOccurs(needles, Flatten(chunks[..i]))
    {
      ghost var done := Flatten(chunks[..i]);
      assert chunks[..i + 1] == chunks[..i] + [chunks[i]];
      FlattenSnoc(chunks[..i], chunks[i]);
      NewOccurrences(needles, done, chunks[i], overlap);
      var payload := tail + chunks[i];
      found := FindAny(needles, payload);
      if found {
        StaysFound(needles, chunks, i + 1);
        return true;
      }
      TailOfTail(done, chunks[i], overlap);
      tail := TailOf(payload, overlap);
    }
    assert chunks[..|chunks|] == chunks;
    return false;
  }

  lemma {:induction false} NothingOccurs(needles: seq<ByteString>)
    requires Sized(needles)
    ensures !AnyOccurs(needles, [])
  {
  }

  lemma {:induction false} StaysFound(needles: seq<ByteString>, chunks: seq<ByteString>, n: nat)
    requires n <= |chunks| && AnyOccurs(needles, Flatten(chunks[..n]))
    ensures AnyOccurs(needles, Flatten(chunks))
  {
    assert chunks == chunks[..n] + chunks[n..];
    FlattenConcat(chunks[..n], chunks[n..]);
    var a, b := Flatten(chunks[..n]), Flatten(chunks[n..]);
    var i :| 0 <= i < |needles| && Occurs(needles[i], a);
    var k: nat :| OccursAt(needles[i], a, k);
    assert (a + b)[k..k + |needles[i]|] == a[k..k + |needles[i]|];
    assert OccursAt(needles[i], a + b, k);
    assert Occurs(needles[i], Flatten(chunks));
  }

  lemma {:induction false} FlattenConcat(a: seq<ByteString>, b: seq<ByteString>)
    ensures Flatten(a + b) == Flatten(a) + Flatten(b)
  {
    if a == [] {
      assert a + b == b;
    } else {
      FlattenConcat(a[1..], b);
      assert (a + b)[1..] == a[1..] + b;
      assert a[0] + (Flatten(a[1..]) + Flatten(b)) == (a[0] + Flatten(a[1..])) + Flatten(b);
    }
  }

  // ---------------------------------------------------------------- a tree of files

  datatype ScanResult = Clean | Detected(file: nat) | TooLarge

  function TotalBytes(files: seq<seq<ByteString>>): (r: nat) {
    if files == [] then 0 else TotalBytes(files[..|files| - 1]) + |Flatten(files[|files| - 1])|
  }

  /** Clean means that everything was read within the bound and no file contains a needle. */
  method ScanTree(needles: seq<ByteString>, files: seq<seq<ByteString>>, maximum: nat) returns (r: ScanResult)
    requires Sized(needles)
    ensures r.Clean? <==> TotalBytes(files) <= maximum && forall i :: 0 <= i < |files| ==> !AnyOccurs(needles, Flatten(files[i]))
    ensures r.Detected? ==> r.file < |files| && AnyOccurs(needles, Flatten(files[r.file]))
    ensures r.TooLarge? ==> TotalBytes(files) > maximum
  {
    var scanned := 0;
    assert files[..0] == [];
    for i := 0 to |files|
      invariant scanned == TotalBytes(files[..i]) <= maximum
      invariant forall j :: 0 <= j < i ==> !AnyOccurs(needles, Flatten(files[j]))
    {
      assert files[..i + 1][..i] == files[..i];
      TotalGrows(files, i + 1);
      scanned := scanned + |Flatten(files[i])|;
      if scanned > maximum {
        return TooLarge;
      }
      var found := ScanFile(needles, files[i]);
      if found {
        return Detected(i);
      }
    }
    assert files[..|files|] == files;
    return Clean;
  }

  lemma {:induction false} TotalGrows(files: seq<seq<ByteString>>, n: nat)
    requires n <= |files|
    ensures TotalBytes(files[..n]) <= TotalBytes(files)
    decreases |files|
  {
    if n == |files| {
      assert files[..n] == files;
    } else {
      assert files[..|files| - 1][..n] == files[..n];
      TotalGrows(files[..|files| - 1], n);
    }
  }
}

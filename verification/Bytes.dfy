/** Byte strings: big-endian integers and UTF-8. */
module Bytes {
  import opened Wrappers

  type Byte = b: int | 0 <= b < 256
  type ByteString = seq<Byte>

  // ---------------------------------------------------------------- big-endian integers

  function Pow256(width: nat): (r: nat)
    ensures r > 0
  {
    if width == 0 then 1 else 256 * Pow256(width - 1)
  }

  /** `argument.to_bytes(width, "big")`, where the argument fits the width. */
  function BigEndian(n: nat, width: nat): (r: ByteString)
    ensures |r| == width
    decreases width
  {
    if width == 0 then [] else BigEndian(n / 256, width - 1) + [n % 256]
  }

  function FromBigEndian(bs: ByteString): (r: nat)
    ensures r < Pow256(|bs|)
  {
    if bs == [] then 0 else 256 * FromBigEndian(bs[..|bs| - 1]) + bs[|bs| - 1]
  }

  lemma {:induction false} BigEndianRoundTrip(n: nat, width: nat)
    requires n < Pow256(width)
    ensures FromBigEndian(BigEndian(n, width)) == n
    decreases width
  {
    if width > 0 {
      BigEndianRoundTrip(n / 256, width - 1);
      var bs := BigEndian(n, width);
      assert bs[..|bs| - 1] == BigEndian(n / 256, width - 1);
    }
  }

  // ---------------------------------------------------------------- UTF-8

  function EncodeChar(c: char): (r: ByteString)
    ensures 1 <= |r| <= 4
  {
    var p := c as int;
    if p < 0x80 then [p]
    else if p < 0x800 then [0xC0 + p / 64, 0x80 + p % 64]
    else if p < 0x10000 then [0xE0 + p / 4096, 0x80 + p / 64 % 64, 0x80 + p % 64]
    else [0xF0 + p / 262144, 0x80 + p / 4096 % 64, 0x80 + p / 64 % 64, 0x80 + p % 64]
  }

  /** `text.encode("utf-8")` */
  function Utf8(s: string): (r: ByteString)
    ensures |r| >= |s|
  {
    if s == [] then [] else EncodeChar(s[0]) + Utf8(s[1..])
  }

  /** Width of the UTF-8 sequence opened by a first byte; 0 when no sequence starts with it. */
  function SequenceWidth(first: Byte): (w: nat)
    ensures w <= 4
  {
    if first < 0x80 then 1
    else if 0xC0 <= first < 0xE0 then 2
    else if 0xE0 <= first < 0xF0 then 3
    else if 0xF0 <= first < 0xF8 then 4
    else 0
  }

  predicate Continues(b: Byte) { 0x80 <= b < 0xC0 }

  function CodePoint(bs: ByteString): (p: nat)
    requires bs != [] && |bs| == SequenceWidth(bs[0])
    requires forall i :: 1 <= i < |bs| ==> Continues(bs[i])
  {
    var first: int, last: int := bs[0], bs[|bs| - 1];
    if |bs| == 1 then first
    else if |bs| == 2 then assert Continues(bs[1]); (first - 0xC0) * 64 + (last - 0x80)
    else
      var second: int := bs[1];
      assert Continues(bs[1]) && Continues(bs[2]);
      if |bs| == 3 then (first - 0xE0) * 4096 + (second - 0x80) * 64 + (last - 0x80)
      else
        var third: int := bs[2];
        assert Continues(bs[3]);
        (first - 0xF0) * 262144 + (second - 0x80) * 4096 + (third - 0x80) * 64 + (last - 0x80)
  }

  predicate IsScalar(p: nat) { p < 0xD800 || 0xE000 <= p < 0x110000 }

  /** A UTF-8 reader that also reads overlong sequences. */
  function FromUtf8(bs: ByteString): (r: Option<string>) {
    if bs == [] then Some("") else
      var w := SequenceWidth(bs[0]);
      if w == 0 || w > |bs| || !(forall i :: 1 <= i < w ==> Continues(bs[i])) then None else
        var p := CodePoint(bs[..w]);
        if !IsScalar(p) then None else
          match FromUtf8(bs[w..])
          case None => None
          case Some(s) => Some([p as char] + s)
  }

  lemma {:induction false} CharRoundTrip(c: char)
    ensures var bs := EncodeChar(c);
            && |bs| == SequenceWidth(bs[0])
            && (forall i :: 1 <= i < |bs| ==> Continues(bs[i]))
            && CodePoint(bs) == c as int
  {
    var p := c as int;
    var bs := EncodeChar(c);
    assert p == (p / 64) * 64 + p % 64;
    if 0x800 <= p {
      assert p / 64 == (p / 4096) * 64 + p / 64 % 64;
    }
    if 0x10000 <= p {
      assert p / 4096 == (p / 262144) * 64 + p / 4096 % 64;
    }
  }

  lemma {:induction false} Utf8RoundTrip(s: string)
    ensures FromUtf8(Utf8(s)) == Some(s)
  {
    if s != [] {
      var head := EncodeChar(s[0]);
      var bs := Utf8(s);
      CharRoundTrip(s[0]);
      Utf8RoundTrip(s[1..]);
      assert bs[..|head|] == head && bs[|head|..] == Utf8(s[1..]);
      assert forall i :: 1 <= i < |head| ==> bs[i] == head[i];
      assert [s[0]] + s[1..] == s;
    }
  }

  /** No byte string that reads as `s` is shorter than its UTF-8 encoding. */
  lemma {:induction false} Utf8IsShortest(bs: ByteString, s: string)
    requires FromUtf8(bs) == Some(s)
    ensures |Utf8(s)| <= |bs|
  {
    if bs != [] {
      var w := SequenceWidth(bs[0]);
      assert forall i :: 1 <= i < w ==> bs[..w][i] == bs[i];
      assert |EncodeChar(s[0])| <= w;
      Utf8IsShortest(bs[w..], s[1..]);
    }
  }
}

/** UTF-8 (section 3 of RFC 3629), and a decoder that ignores what is not UTF-8. */
module Utf8 {
  import opened Bytes

  // A Unicode scalar value.
  type Point = p: int | 0 <= p < 0xD800 || 0xE000 <= p < 0x110000

  type Text = seq<Point>

  function Tail(n: nat): byte {
    0x80 + n % 64
  }

  function EncodePoint(p: Point): (r: seq<byte>)
    ensures 1 <= |r| <= 4
  {
    if p < 0x80 then [p]
    else if p < 0x800 then [0xC0 + p / 64, Tail(p)]
    else if p < 0x10000 then [0xE0 + p / 4096, Tail(p / 64), Tail(p)]
    else [0xF0 + p / 262144, Tail(p / 4096), Tail(p / 64), Tail(p)]
  }

  function Encode(t: Text): seq<byte> {
    if t == [] then [] else EncodePoint(t[0]) + Encode(t[1..])
  }

  // len(t.encode())
  function Utf8Size(t: Text): (n: nat) {
    |Encode(t)|
  }

  lemma {:induction false} EncodeAppend(t: Text, u: Text)
    ensures Encode(t + u) == Encode(t) + Encode(u)
  {
    if t == [] {
      assert t + u == u;
    } else {
      assert (t + u)[1..] == t[1..] + u;
      EncodeAppend(t[1..], u);
    }
  }

  // A longer prefix takes more bytes.
  lemma PrefixSize(t: Text, j: nat, k: nat)
    requires j < k <= |t|
    ensures Utf8Size(t[..j]) < Utf8Size(t[..k])
  {
    assert t[..k] == t[..j] + t[j..k];
    EncodeAppend(t[..j], t[j..k]);
  }

  // -- Decoding ---------------------------------------------------------------

  // How long a sequence with this first byte is; 0 for a byte none starts with.
  function Need(lead: byte): nat {
    if lead < 0x80 then 1
    else if lead < 0xC2 then 0
    else if lead < 0xE0 then 2
    else if lead < 0xF0 then 3
    else if lead < 0xF5 then 4
    else 0
  }

  // No overlong forms, no surrogates, nothing past the last code point.
  predicate SecondOk(lead: byte, b: byte) {
    if lead == 0xE0 then 0xA0 <= b < 0xC0
    else if lead == 0xED then 0x80 <= b < 0xA0
    else if lead == 0xF0 then 0x90 <= b < 0xC0
    else if lead == 0xF4 then 0x80 <= b < 0x90
    else 0x80 <= b < 0xC0
  }

  predicate IsTail(b: byte) {
    0x80 <= b < 0xC0
  }

  // How many bytes at the front belong to one sequence, complete or not.
  function Matched(bs: seq<byte>): (n: nat)
    requires bs != []
    ensures 1 <= n <= |bs| && n <= 4
  {
    if Need(bs[0]) < 2 || |bs| < 2 || !SecondOk(bs[0], bs[1]) then 1
    else if Need(bs[0]) < 3 || |bs| < 3 || !IsTail(bs[2]) then 2
    else if Need(bs[0]) < 4 || |bs| < 4 || !IsTail(bs[3]) then 3
    else 4
  }

  function PointAt(bs: seq<byte>): Point
    requires bs != [] && Matched(bs) == Need(bs[0])
  {
    var n, b0: int := Need(bs[0]), bs[0];
    if n == 1 then b0
    else
      var b1: int := bs[1];
      if n == 2 then (b0 - 0xC0) * 64 + (b1 - 0x80)
      else
        var b2: int := bs[2];
        if n == 3 then (b0 - 0xE0) * 4096 + (b1 - 0x80) * 64 + (b2 - 0x80)
        else
          var b3: int := bs[3];
          (b0 - 0xF0) * 262144 + (b1 - 0x80) * 4096 + (b2 - 0x80) * 64 + (b3 - 0x80)
  }

  // bytes.decode(errors="ignore")
  function DecodeIgnoring(bs: seq<byte>): Text
    decreases |bs|
  {
    if bs == [] then []
    else
      var n := Matched(bs);
      (if n == Need(bs[0]) then [PointAt(bs)] else []) + DecodeIgnoring(bs[n..])
  }

  // The digits of p in base 64.
  lemma Digits(p: nat)
    ensures p == p / 64 * 64 + p % 64
    ensures p == p / 4096 * 4096 + p / 64 % 64 * 64 + p % 64
    ensures p == p / 262144 * 262144 + p / 4096 % 64 * 4096 + p / 64 % 64 * 64 + p % 64
  {
    assert p / 64 / 64 == p / 4096 && p / 4096 / 64 == p / 262144;
  }

  lemma PointRoundTrip(p: Point, rest: seq<byte>)
    ensures var bs := EncodePoint(p) + rest;
      Matched(bs) == Need(bs[0]) == |EncodePoint(p)| && PointAt(bs) == p && bs[Matched(bs)..] == rest
  {
    var bs := EncodePoint(p) + rest;
    Digits(p);
    assert bs[|EncodePoint(p)|..] == rest;
    if p < 0x80 {
    } else if p < 0x800 {
      assert bs[0] == 0xC0 + p / 64 && bs[1] == Tail(p);
    } else if p < 0x10000 {
      assert bs[0] == 0xE0 + p / 4096 && bs[1] == Tail(p / 64) && bs[2] == Tail(p);
      assert SecondOk(bs[0], bs[1]);
    } else {
      assert bs[0] == 0xF0 + p / 262144 && bs[1] == Tail(p / 4096) && bs[2] == Tail(p / 64) && bs[3] == Tail(p);
      assert SecondOk(bs[0], bs[1]);
    }
  }

  lemma CutPoint(p: Point, n: nat)
    requires n < |EncodePoint(p)|
    ensures DecodeIgnoring(EncodePoint(p)[..n]) == []
  {
  }

  lemma {:induction false} RoundTrip(t: Text)
    ensures DecodeIgnoring(Encode(t)) == t
  {
    if t != [] {
      PointRoundTrip(t[0], Encode(t[1..]));
      RoundTrip(t[1..]);
    }
  }

  // -- Cutting ----------------------------------------------------------------

  function Cut(bs: seq<byte>, n: nat): seq<byte> {
    if n < |bs| then bs[..n] else bs
  }

  // t.encode()[:n].decode(errors="ignore")
  function Utf8Prefix(t: Text, n: nat): Text {
    DecodeIgnoring(Cut(Encode(t), n))
  }

  // The longest prefix of whole code points that takes at most n bytes.
  ghost predicate LongestPrefix(t: Text, n: nat, r: Text) {
    && |r| <= |t| && r == t[..|r|] && Utf8Size(r) <= n
    && (|r| < |t| ==> Utf8Size(t[..|r| + 1]) > n)
  }

  lemma {:induction false} PrefixIsLongest(t: Text, n: nat)
    ensures LongestPrefix(t, n, Utf8Prefix(t, n))
  {
    hide EncodePoint, PointAt, Matched, Need;
    if t == [] {
    } else {
      var first, bs := EncodePoint(t[0]), Encode(t);
      if n < |first| {
        assert Cut(bs, n) == first[..n];
        CutPoint(t[0], n);
        assert t[..1] == [t[0]] && t[..0] == [];
        assert Encode(t[..1]) == first + [];
      } else {
        var m := n - |first|;
        assert Cut(bs, n) == first + Cut(Encode(t[1..]), m);
        PointRoundTrip(t[0], Cut(Encode(t[1..]), m));
        PrefixIsLongest(t[1..], m);
        var r := Utf8Prefix(t[1..], m);
        assert Utf8Prefix(t, n) == [t[0]] + r;
        assert t[..|r| + 1] == [t[0]] + t[1..][..|r|];
        if |r| + 1 < |t| {
          assert t[..|r| + 2] == [t[0]] + t[1..][..|r| + 1];
        }
      }
    }
  }
}

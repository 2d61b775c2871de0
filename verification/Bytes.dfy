/** Bytes, byte order and hexadecimal text, as the firmware and the host tool use them. */
module Bytes {
  import opened Outcomes

  type byte = x: int | 0 <= x < 256

  // Bitwise exclusive or.
  function Xor(a: nat, b: nat): nat {
    if a == 0 && b == 0 then 0 else 2 * Xor(a / 2, b / 2) + (a + b) % 2
  }

  lemma {:induction false} XorBound(a: nat, b: nat, n: nat)
    requires a < Pow2(n) && b < Pow2(n)
    ensures Xor(a, b) < Pow2(n)
  {
    if n > 0 {
      XorBound(a / 2, b / 2, n - 1);
    }
  }

  lemma Halves(q: nat, a: nat, k: nat)
    ensures var r := 2 * q + (a + k) % 2; r / 2 == q && (r + k) % 2 == a % 2
  {
  }

  lemma {:induction false} XorTwice(a: nat, k: nat)
    ensures Xor(Xor(a, k), k) == a
  {
    if a != 0 || k != 0 {
      XorTwice(a / 2, k / 2);
      Halves(Xor(a / 2, k / 2), a, k);
    }
  }

  function Pow2(n: nat): (r: nat)
    ensures r > 0
  {
    if n == 0 then 1 else 2 * Pow2(n - 1)
  }

  function XorByte(a: byte, b: byte): byte {
    assert Pow2(8) == 256;
    XorBound(a, b, 8);
    Xor(a, b)
  }

  lemma {:induction false} Product(x: nat, y: nat, d: nat)
    requires x < y
    ensures x * d + d <= y * d
    decreases y
  {
    assert y * d == (y - 1) * d + d;
    if x + 1 < y {
      Product(x, y - 1, d);
    }
  }

  lemma DivOf(a: nat, d: nat, q: nat, r: nat)
    requires a == q * d + r && r < d
    ensures a / d == q
  {
    var k := a / d;
    assert a == k * d + a % d;
    if k < q {
      Product(k, q, d);
    } else if q < k {
      Product(q, k, d);
    }
  }

  lemma DivTwice(a: nat, d: nat)
    requires d > 0
    ensures a / (2 * d) == a / 2 / d
  {
    var q, r := a / 2 / d, a / 2 % d;
    assert a / 2 == q * d + r;
    assert q * (2 * d) == 2 * (q * d);
    DivOf(a, 2 * d, q, 2 * r + a % 2);
  }

  lemma XorHalves(a: nat, b: nat)
    ensures Xor(a, b) / 2 == Xor(a / 2, b / 2) && Xor(a, b) % 2 == (a + b) % 2
  {
  }

  // A binary digit of the result is one exactly if one of the two digits is.
  lemma {:induction false} XorBits(a: nat, b: nat, i: nat)
    ensures Xor(a, b) / Pow2(i) % 2 == (a / Pow2(i) + b / Pow2(i)) % 2
    decreases i
  {
    hide Xor;
    XorHalves(a, b);
    if i == 0 {
      assert Pow2(0) == 1;
    } else {
      var d := Pow2(i - 1);
      assert Pow2(i) == 2 * d;
      hide Pow2;
      XorBits(a / 2, b / 2, i - 1);
      DivTwice(a, d);
      DivTwice(b, d);
      DivTwice(Xor(a, b), d);
    }
  }

  lemma XorByteBits(a: byte, b: byte, i: nat)
    requires i < 8
    ensures XorByte(a, b) / Pow2(i) % 2 == (a / Pow2(i) + b / Pow2(i)) % 2
  {
    XorBits(a, b, i);
  }

  // Bytes with the same binary digits are the same.
  lemma {:induction false} SameBits(a: nat, b: nat, n: nat)
    requires a < Pow2(n) && b < Pow2(n) && forall i :: 0 <= i < n ==> a / Pow2(i) % 2 == b / Pow2(i) % 2
    ensures a == b
  {
    if n > 0 {
      assert a / Pow2(0) % 2 == b / Pow2(0) % 2;
      forall i | 0 <= i < n - 1
        ensures a / 2 / Pow2(i) % 2 == b / 2 / Pow2(i) % 2
      {
        DivTwice(a, Pow2(i));
        DivTwice(b, Pow2(i));
        assert a / Pow2(i + 1) % 2 == b / Pow2(i + 1) % 2;
      }
      SameBits(a / 2, b / 2, n - 1);
    }
  }

  // 256^n.
  function Pow256(n: nat): (r: nat)
    ensures r > 0
  {
    if n == 0 then 1 else 256 * Pow256(n - 1)
  }

  // The number whose most significant byte comes first.
  function BigEndian(s: seq<byte>): nat {
    if s == [] then 0 else 256 * BigEndian(s[..|s| - 1]) + s[|s| - 1]
  }

  // The number in the n bytes from position at, the least significant byte first.
  function LittleEndian(s: seq<byte>, at: nat, n: nat): nat
    requires at + n <= |s|
    decreases n
  {
    if n == 0 then 0 else s[at] + 256 * LittleEndian(s, at + 1, n - 1)
  }

  // The last n base-256 digits of v, most significant first.
  function ToBigEndian(v: nat, n: nat): (s: seq<byte>)
    ensures |s| == n
  {
    if n == 0 then [] else ToBigEndian(v / 256, n - 1) + [v % 256]
  }

  // Four bytes as one number, either way round.
  lemma FourBytes(s: seq<byte>)
    requires |s| == 4
    ensures BigEndian(s) == s[0] as int * 0x100_0000 + s[1] as int * 0x1_0000 + s[2] as int * 0x100 + s[3]
    ensures LittleEndian(s, 0, 4) == s[0] + s[1] as int * 0x100 + s[2] as int * 0x1_0000 + s[3] as int * 0x100_0000
  {
    var a: int, b: int, c: int, d: int := s[0], s[1], s[2], s[3];
    assert s[..3][..2] == s[..2] && s[..2][..1] == s[..1] && s[..1][..0] == [];
    assert BigEndian(s[..1]) == a && BigEndian(s[..2]) == 256 * a + b;
    assert BigEndian(s[..3]) == 256 * BigEndian(s[..2]) + c;
    assert LittleEndian(s, 3, 1) == d && LittleEndian(s, 2, 2) == c + 256 * d;
    assert LittleEndian(s, 1, 3) == b + 256 * LittleEndian(s, 2, 2);
  }

  lemma {:induction false} BigEndianBound(s: seq<byte>)
    ensures BigEndian(s) < Pow256(|s|)
  {
    if s != [] {
      BigEndianBound(s[..|s| - 1]);
    }
  }

  // Writing a number that fits and reading it back gives the number.
  lemma {:induction false} BigEndianOfDigits(v: nat, n: nat)
    requires v < Pow256(n)
    ensures BigEndian(ToBigEndian(v, n)) == v
  {
    if n > 0 {
      BigEndianOfDigits(v / 256, n - 1);
      var s := ToBigEndian(v, n);
      assert s[..|s| - 1] == ToBigEndian(v / 256, n - 1);
    }
  }

  // Reading bytes and writing the number back gives the bytes.
  lemma {:induction false} DigitsOfBigEndian(s: seq<byte>)
    ensures ToBigEndian(BigEndian(s), |s|) == s
  {
    if s != [] {
      DigitsOfBigEndian(s[..|s| - 1]);
      var v := BigEndian(s);
      assert v / 256 == BigEndian(s[..|s| - 1]) && v % 256 == s[|s| - 1];
      assert s == s[..|s| - 1] + [s[|s| - 1]];
    }
  }

  lemma {:induction false} Pow256Add(a: nat, b: nat)
    ensures Pow256(a + b) == Pow256(a) * Pow256(b)
  {
    if a > 0 {
      Pow256Add(a - 1, b);
    }
  }

  function HexValue(c: char): (v: Option<nat>)
    ensures v.Some? ==> v.value < 16
  {
    if '0' <= c <= '9' then Some(c as nat - '0' as nat)
    else if 'a' <= c <= 'f' then Some(c as nat - 'a' as nat + 10)
    else None
  }

  function HexDigit(v: nat): char
    requires v < 16
  {
    "0123456789abcdef"[v]
  }

  predicate IsHex(s: string) {
    |s| % 2 == 0 && forall i :: 0 <= i < |s| ==> HexValue(s[i]).Some?
  }

  // The byte spelled by the two digits at position 2 * i.
  function HexByte(s: string, i: nat): byte
    requires IsHex(s) && 2 * i + 1 < |s|
  {
    HexValue(s[2 * i]).value * 16 + HexValue(s[2 * i + 1]).value
  }

  function FromHex(s: string): (b: seq<byte>)
    requires IsHex(s)
    ensures |b| == |s| / 2
  {
    seq(|s| / 2, i requires 0 <= i < |s| / 2 => HexByte(s, i))
  }

  function ToHex(b: seq<byte>): (s: string)
    ensures |s| == 2 * |b|
  {
    if b == [] then ""
    else [HexDigit(b[0] / 16), HexDigit(b[0] % 16)] + ToHex(b[1..])
  }

  // Sixteen digits have a value, the letters in lower case only.
  lemma HexValueIs(c: char, v: nat)
    ensures HexValue(c) == Some(v) <==> v < 16 && "0123456789abcdef"[v] == c
  {
  }

  lemma {:induction false} HexDigitValue(v: nat)
    requires v < 16
    ensures HexValue(HexDigit(v)) == Some(v)
  {
  }

  lemma {:induction false} ToHexAt(b: seq<byte>, i: nat)
    requires i < |b|
    ensures HexValue(ToHex(b)[2 * i]) == Some(b[i] / 16)
    ensures HexValue(ToHex(b)[2 * i + 1]) == Some(b[i] % 16)
  {
    var s := ToHex(b);
    if i > 0 {
      ToHexAt(b[1..], i - 1);
      assert s[2..] == ToHex(b[1..]);
      assert s[2 * i] == s[2..][2 * (i - 1)] && s[2 * i + 1] == s[2..][2 * (i - 1) + 1];
    } else {
      HexDigitValue(b[0] / 16);
      HexDigitValue(b[0] % 16);
    }
  }

  lemma ToHexIsHex(b: seq<byte>)
    ensures IsHex(ToHex(b))
  {
    hide HexValue, ToHex;
    forall i | 0 <= i < 2 * |b|
      ensures HexValue(ToHex(b)[i]).Some?
    {
      ToHexAt(b, i / 2);
      assert i == 2 * (i / 2) || i == 2 * (i / 2) + 1;
    }
  }

  // Printing bytes in hexadecimal and reading the text gives the bytes.
  lemma HexRoundTrip(b: seq<byte>)
    ensures IsHex(ToHex(b)) && FromHex(ToHex(b)) == b
  {
    hide HexValue, ToHex, IsHex;
    ToHexIsHex(b);
    forall i | 0 <= i < |b|
      ensures FromHex(ToHex(b))[i] == b[i]
    {
      ToHexAt(b, i);
    }
  }

  // The bytes of an ASCII text.
  function Ascii(s: string): (b: seq<byte>)
    requires forall i :: 0 <= i < |s| ==> s[i] < 128 as char
    ensures |b| == |s| && forall i :: 0 <= i < |s| ==> b[i] == s[i] as nat
  {
    seq(|s|, i requires 0 <= i < |s| => s[i] as nat)
  }

  // sub occurs contiguously in s.
  ghost predicate Contains(s: seq<byte>, sub: seq<byte>) {
    exists i :: OccursAt(s, sub, i)
  }

  ghost predicate OccursAt(s: seq<byte>, sub: seq<byte>, i: int) {
    0 <= i && i + |sub| <= |s| && s[i..i + |sub|] == sub
  }
}

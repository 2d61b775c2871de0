/** AES in counter mode (section 6.5 of NIST SP 800-38A): the standard's block
    form, the keystream as a function of the byte position, and the receiver's
    byte-wise counter increment. */
module CtrMode {
  import opened Outcomes
  import opened Bytes

  type Block = s: seq<byte> | |s| == 16 witness seq(16, _ => 0)
  type Digest = s: seq<byte> | |s| == 32 witness seq(32, _ => 0)

  // The primitives are arbitrary total functions.
  datatype Crypto = Crypto(
    aes: (Digest, Block) -> Block,
    hmac: (seq<byte>, seq<byte>) -> Digest,
    sha256: seq<byte> -> Digest)

  // 2^128, the number of counter blocks.
  const BLOCKS: nat := 0x1_0000_0000_0000_0000_0000_0000_0000_0000

  // The standard incrementing function on a whole block (appendix B.1).
  function Increment(b: Block): Block {
    ToBigEndian((BigEndian(b) + 1) % BLOCKS, 16)
  }

  // The carry loop: bytes that wrap to zero pass the carry to the left.
  function Carry(s: seq<byte>): (r: seq<byte>)
    ensures |r| == |s|
  {
    if s == [] then []
    else
      var front, last := s[..|s| - 1], s[|s| - 1];
      if last == 255 then Carry(front) + [0] else front + [last + 1]
  }

  // The counter after j runs of the carry loop.
  function CounterBlock(iv: Block, j: nat): Block {
    if j == 0 then iv else Carry(CounterBlock(iv, j - 1))
  }

  function KeystreamByte(c: Crypto, key: Digest, iv: Block, n: nat): byte {
    c.aes(key, CounterBlock(iv, n / 16))[n % 16]
  }

  // data at stream position start, combined with the keystream.
  function Ctr(c: Crypto, key: Digest, iv: Block, start: nat, data: seq<byte>): (r: seq<byte>)
    ensures |r| == |data|
  {
    if data == [] then []
    else
      var n := |data| - 1;
      Ctr(c, key, iv, start, data[..n]) + [XorByte(data[n], KeystreamByte(c, key, iv, start + n))]
  }

  function XorPrefix(data: seq<byte>, stream: Block): (r: seq<byte>)
    requires |data| <= 16
    ensures |r| == |data|
  {
    if data == [] then []
    else
      var n := |data| - 1;
      XorPrefix(data[..n], stream) + [XorByte(data[n], stream[n])]
  }

  // The standard's definition: whole blocks, each under the incremented counter,
  // and a last partial block under the most significant bytes of its output block.
  function NistCtr(c: Crypto, key: Digest, counter: Block, data: seq<byte>): (r: seq<byte>)
    ensures |r| == |data|
    decreases |data|
  {
    if |data| <= 16 then XorPrefix(data, c.aes(key, counter))
    else XorPrefix(data[..16], c.aes(key, counter)) + NistCtr(c, key, Increment(counter), data[16..])
  }

  lemma BlocksIsPow256()
    ensures BLOCKS == Pow256(16)
  {
    Pow256Add(8, 8);
    Pow256Add(4, 4);
    assert Pow256(4) == 0x1_0000_0000;
  }

  lemma BlockBound(b: Block)
    ensures BigEndian(b) < BLOCKS
    ensures ToBigEndian(BigEndian(b), 16) == b
  {
    BlocksIsPow256();
    BigEndianBound(b);
    DigitsOfBigEndian(b);
  }

  lemma {:induction false} CarryAddsOne(s: seq<byte>)
    ensures BigEndian(Carry(s)) == if BigEndian(s) + 1 == Pow256(|s|) then 0 else BigEndian(s) + 1
  {
    if s != [] {
      var front, r := s[..|s| - 1], Carry(s);
      BigEndianBound(front);
      CarryAddsOne(front);
      if s[|s| - 1] == 255 {
        assert r[..|r| - 1] == Carry(front);
      } else {
        assert r[..|r| - 1] == front;
      }
    }
  }

  lemma CarryOnBlock(b: Block)
    ensures BigEndian(Carry(b)) == if BigEndian(b) + 1 == BLOCKS then 0 else BigEndian(b) + 1
  {
    BlocksIsPow256();
    CarryAddsOne(b);
  }

  // The carry loop is the standard incrementing function.
  lemma CarryIsIncrement(b: Block)
    ensures Carry(b) == Increment(b)
  {
    hide Carry, BigEndian, ToBigEndian;
    BlockBound(b);
    CarryOnBlock(b);
    BlockBound(Carry(b));
    assert BigEndian(Carry(b)) == (BigEndian(b) + 1) % BLOCKS;
  }

  // The j-th counter is the initial one plus j modulo 2^128, so the keystream
  // depends only on the position in the stream.
  lemma {:induction false} CounterBlockValue(iv: Block, j: nat)
    ensures BigEndian(CounterBlock(iv, j)) == (BigEndian(iv) + j) % BLOCKS
  {
    hide Carry, BigEndian, ToBigEndian;
    BlockBound(iv);
    if j > 0 {
      CounterBlockValue(iv, j - 1);
      CarryOnBlock(CounterBlock(iv, j - 1));
      NextModulo(BigEndian(iv) + j - 1);
    }
  }

  lemma NextModulo(x: nat)
    ensures (x + 1) % BLOCKS == if x % BLOCKS + 1 == BLOCKS then 0 else x % BLOCKS + 1
  {
  }

  // One block, or a final part of one, starting on a block boundary.
  lemma {:induction false} CtrOfBlock(c: Crypto, key: Digest, iv: Block, j: nat, data: seq<byte>)
    requires |data| <= 16
    ensures XorPrefix(data, c.aes(key, CounterBlock(iv, j))) == Ctr(c, key, iv, 16 * j, data)
  {
    if data != [] {
      var n := |data| - 1;
      CtrOfBlock(c, key, iv, j, data[..n]);
      KeystreamAt(c, key, iv, j, n);
    }
  }

  lemma KeystreamAt(c: Crypto, key: Digest, iv: Block, j: nat, o: nat)
    requires o < 16
    ensures KeystreamByte(c, key, iv, 16 * j + o) == c.aes(key, CounterBlock(iv, j))[o]
  {
    assert (16 * j + o) / 16 == j && (16 * j + o) % 16 == o;
  }

  lemma NextCounter(iv: Block, j: nat)
    ensures Increment(CounterBlock(iv, j)) == CounterBlock(iv, j + 1)
  {
    CarryIsIncrement(CounterBlock(iv, j));
  }

  lemma CtrBlocks(c: Crypto, key: Digest, iv: Block, j: nat, data: seq<byte>)
    requires |data| > 16
    ensures Ctr(c, key, iv, 16 * j, data) ==
              Ctr(c, key, iv, 16 * j, data[..16]) + Ctr(c, key, iv, 16 * (j + 1), data[16..])
  {
    CtrSplit(c, key, iv, 16 * j, data[..16], data[16..]);
    assert data == data[..16] + data[16..];
  }

  // The byte-indexed form computes what the standard's block form computes.
  lemma {:induction false} CtrIsNist(c: Crypto, key: Digest, iv: Block, j: nat, counter: Block, data: seq<byte>)
    requires counter == CounterBlock(iv, j)
    ensures NistCtr(c, key, counter, data) == Ctr(c, key, iv, 16 * j, data)
    decreases |data|
  {
    if |data| <= 16 {
      CtrOfBlock(c, key, iv, j, data);
    } else {
      var a, b := data[..16], data[16..];
      CtrOfBlock(c, key, iv, j, a);
      NextCounter(iv, j);
      CtrIsNist(c, key, iv, j + 1, Increment(counter), b);
      CtrBlocks(c, key, iv, j, data);
    }
  }

  // Counter mode may be applied piece by piece.
  lemma {:induction false} CtrSplit(c: Crypto, key: Digest, iv: Block, start: nat, a: seq<byte>, b: seq<byte>)
    ensures Ctr(c, key, iv, start, a + b) == Ctr(c, key, iv, start, a) + Ctr(c, key, iv, start + |a|, b)
  {
    hide KeystreamByte, XorByte;
    if b == [] {
      assert a + b == a;
    } else {
      var n := |b| - 1;
      CtrSplit(c, key, iv, start, a, b[..n]);
      assert (a + b)[..|a| + n] == a + b[..n];
      assert start + |a| + n == start + (|a| + n);
    }
  }

  lemma {:induction false} CtrAt(c: Crypto, key: Digest, iv: Block, start: nat, data: seq<byte>, n: nat)
    requires n < |data|
    ensures Ctr(c, key, iv, start, data)[n] == XorByte(data[n], KeystreamByte(c, key, iv, start + n))
  {
    hide KeystreamByte, XorByte;
    if n < |data| - 1 {
      CtrAt(c, key, iv, start, data[..|data| - 1], n);
    }
  }

  lemma SameBlock(a: Block, b: Block)
    requires BigEndian(a) == BigEndian(b)
    ensures a == b
  {
    BlockBound(a);
    BlockBound(b);
  }

  // Bit for bit: the byte at position start + n is combined by exclusive or with the byte at
  // place (start + n) % 16 of the encryption of the initial counter plus (start + n) / 16.
  lemma CtrBits(c: Crypto, key: Digest, iv: Block, start: nat, data: seq<byte>, n: nat, counter: Block, i: nat)
    requires n < |data| && i < 8
    requires BigEndian(counter) == (BigEndian(iv) + (start + n) / 16) % 0x1_0000_0000_0000_0000_0000_0000_0000_0000
    ensures Ctr(c, key, iv, start, data)[n] / Pow2(i) % 2 ==
              (data[n] / Pow2(i) + c.aes(key, counter)[(start + n) % 16] / Pow2(i)) % 2
  {
    CtrAt(c, key, iv, start, data, n);
    CounterBlockValue(iv, (start + n) / 16);
    SameBlock(counter, CounterBlock(iv, (start + n) / 16));
    XorByteBits(data[n], KeystreamByte(c, key, iv, start + n), i);
  }

  // Bit i of the byte p at position n is bit i of w combined with the keystream that the
  // standard prescribes for n.
  ghost predicate Combined(c: Crypto, key: Digest, iv: Block, n: nat, i: nat, w: byte, p: byte) {
    var counter := ToBigEndian((BigEndian(iv) + n / 16) % 0x1_0000_0000_0000_0000_0000_0000_0000_0000, 16);
    p / Pow2(i) % 2 == (w / Pow2(i) + c.aes(key, counter)[n % 16] / Pow2(i)) % 2
  }

  ghost predicate Deciphered(c: Crypto, key: Digest, iv: Block, wire: seq<byte>, plain: seq<byte>) {
    && |plain| == |wire|
    && forall n, i :: 0 <= n < |wire| && 0 <= i < 8 ==> Combined(c, key, iv, n, i, wire[n], plain[n])
  }

  lemma CtrCombines(c: Crypto, key: Digest, iv: Block, wire: seq<byte>, n: nat, i: nat)
    requires n < |wire| && i < 8
    ensures Combined(c, key, iv, n, i, wire[n], Ctr(c, key, iv, 0, wire)[n])
  {
    hide Ctr, BigEndian, ToBigEndian;
    BlocksIsPow256();
    BigEndianOfDigits((BigEndian(iv) + n / 16) % BLOCKS, 16);
    CtrBits(c, key, iv, 0, wire, n, ToBigEndian((BigEndian(iv) + n / 16) % BLOCKS, 16), i);
  }

  lemma SameByte(c: Crypto, key: Digest, iv: Block, n: nat, w: byte, p: byte, q: byte)
    requires forall i :: 0 <= i < 8 ==> Combined(c, key, iv, n, i, w, p) && Combined(c, key, iv, n, i, w, q)
    ensures p == q
  {
    forall i | 0 <= i < 8
      ensures p / Pow2(i) % 2 == q / Pow2(i) % 2
    {
      assert Combined(c, key, iv, n, i, w, p) && Combined(c, key, iv, n, i, w, q);
    }
    assert Pow2(8) == 256;
    SameBits(p, q, 8);
  }

  // Counter mode, and nothing else, does that.
  lemma DecipheredIsCtr(c: Crypto, key: Digest, iv: Block, wire: seq<byte>, plain: seq<byte>)
    ensures Deciphered(c, key, iv, wire, plain) <==> plain == Ctr(c, key, iv, 0, wire)
  {
    hide Ctr, Combined;
    var r := Ctr(c, key, iv, 0, wire);
    forall n, i | 0 <= n < |wire| && 0 <= i < 8
      ensures Combined(c, key, iv, n, i, wire[n], r[n])
    {
      CtrCombines(c, key, iv, wire, n, i);
    }
    if Deciphered(c, key, iv, wire, plain) {
      forall n | 0 <= n < |wire|
        ensures plain[n] == r[n]
      {
        SameByte(c, key, iv, n, wire[n], plain[n], r[n]);
      }
    }
  }

  // Decrypting is encrypting again.
  lemma {:induction false} CtrInvolution(c: Crypto, key: Digest, iv: Block, start: nat, data: seq<byte>)
    ensures Ctr(c, key, iv, start, Ctr(c, key, iv, start, data)) == data
  {
    hide KeystreamByte;
    if data != [] {
      var n := |data| - 1;
      var once := Ctr(c, key, iv, start, data);
      CtrInvolution(c, key, iv, start, data[..n]);
      assert once[..n] == Ctr(c, key, iv, start, data[..n]);
      XorTwice(data[n], KeystreamByte(c, key, iv, start + n));
      assert data == data[..n] + [data[n]];
    }
  }

  // The receiver's in-place increment of its big-endian counter.
  method IncrementCounter(counter: array<byte>)
    requires counter.Length == 16
    modifies counter
    ensures counter[..] == Carry(old(counter[..]))
  {
    ghost var was := counter[..];
    assert was[..16] == was && counter[16..] == [];
    var j, carry := 15, true;
    while j >= 0 && carry
      invariant -1 <= j <= 15
      invariant !carry ==> counter[..] == Carry(was)
      invariant carry ==> counter[..j + 1] == was[..j + 1]
      invariant carry ==> Carry(was) == Carry(was[..j + 1]) + counter[j + 1..]
    {
      assert was[..j + 1][..j] == was[..j] && counter[..j] == counter[..j + 1][..j];
      assert counter[j] == counter[..j + 1][j];
      ghost var tail := counter[j + 1..];
      counter[j] := if counter[j] == 255 then 0 else counter[j] + 1;
      carry := counter[j] == 0;
      assert counter[j + 1..] == tail;
      assert counter[j..] == [counter[j]] + tail;
      assert counter[..] == counter[..j] + [counter[j]] + tail;
      j := j - 1;
    }
  }

  // The cipher state that the receiver carries from chunk to chunk.
  class CtrStream {
    const crypto: Crypto
    var key: Digest
    const counter: array<byte>      // the next counter block
    const stream: array<byte>       // the current keystream block
    var offset: nat                 // the next byte of stream, 0 if it is used up
    ghost var iv: Block
    ghost var position: nat         // bytes processed since iv
    ghost var used: nat             // keystream blocks computed since iv

    ghost predicate Valid()
      reads this, counter, stream
    {
      && counter.Length == stream.Length == 16 && counter != stream
      && offset < 16
      && counter[..] == CounterBlock(iv, used)
      && if offset == 0 then position == 16 * used
         else (&& position == 16 * (used - 1) + offset && used > 0
               && stream[..] == crypto.aes(key, CounterBlock(iv, used - 1)))
    }

    constructor (crypto: Crypto)
      ensures Valid() && fresh(counter) && fresh(stream) && this.crypto == crypto
    {
      this.crypto := crypto;
      counter := new byte[16](_ => 0);
      stream := new byte[16](_ => 0);
      offset, position, used := 0, 0, 0;
      iv := seq(16, _ => 0);
      key := seq(32, _ => 0);
      new;
      assert counter[..] == iv;
    }

    method Start(key: Digest, iv: Block)
      requires Valid()
      modifies this, counter, stream
      ensures Valid() && this.key == key && this.iv == iv && position == 0
    {
      this.key := key;
      forall k | 0 <= k < 16 {
        counter[k] := iv[k];
      }
      forall k | 0 <= k < 16 {
        stream[k] := 0;
      }
      offset := 0;
      this.iv, position, used := iv, 0, 0;
      assert counter[..] == iv;
    }

    // The next keystream block, when the current one is used up.
    method Refill()
      requires Valid() && offset == 0
      modifies this`used, counter, stream
      ensures counter[..] == CounterBlock(iv, used) && used == old(used) + 1
      ensures stream[..] == crypto.aes(key, CounterBlock(iv, used - 1))
    {
      var block := crypto.aes(key, counter[..]);
      forall k | 0 <= k < 16 {
        stream[k] := block[k];
      }
      assert stream[..] == block && counter[..] == CounterBlock(iv, used);
      IncrementCounter(counter);
      used := used + 1;
    }

    // The keystream byte at the current position.
    method NextByte() returns (k: byte)
      requires Valid()
      modifies this`offset, this`position, this`used, counter, stream
      ensures Valid() && position == old(position) + 1
      ensures k == KeystreamByte(crypto, key, iv, old(position))
    {
      if offset == 0 {
        Refill();
      }
      KeystreamAt(crypto, key, iv, used - 1, offset);
      k := stream[offset];
      offset := (offset + 1) % 16;
      position := position + 1;
    }

    // Decrypts the first size bytes of data in place. The block needed for byte
    // aesFailsAt, if any, cannot be computed.
    method Apply(data: array<byte>, size: nat, aesFailsAt: Option<nat>) returns (ok: bool)
      requires Valid() && size <= data.Length && data != counter && data != stream
      modifies this`offset, this`position, this`used, counter, stream, data
      ensures Valid() && data[size..] == old(data[size..])
      ensures ok ==> position == old(position) + size
      ensures ok ==> data[..size] == Ctr(crypto, key, iv, old(position), old(data[..size]))
      ensures aesFailsAt == None ==> ok
    {
      hide CtrStream.Valid, KeystreamByte, XorByte;
      var i := 0;
      ghost var was, n := data[..], position;
      assert data[..0] == was[..0] == [];
      while i < size
        invariant 0 <= i <= size && Valid() && position == n + i
        invariant data[..i] == Ctr(crypto, key, iv, n, was[..i])
        invariant data[i..] == was[i..]
      {
        if offset == 0 && aesFailsAt == Some(i) {
          assert data[size..] == data[i..][size - i..];
          return false;
        }
        var k := NextByte();
        assert data[i] == data[i..][0] && was[..i + 1][..i] == was[..i];
        ghost var done, rest := data[..i], data[i + 1..];
        assert rest == data[i..][1..] == was[i..][1..] == was[i + 1..];
        data[i] := XorByte(data[i], k);
        assert data[..i + 1] == done + [data[i]] && data[i + 1..] == rest;
        i := i + 1;
      }
      assert data[..size] == data[..i] && was[..size] == old(data[..size]);
      return true;
    }
  }
}

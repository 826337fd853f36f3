/** CRC-32 as `binascii.crc32` computes it: a fold over bytes, resumable from its result. */
module Crc32 {
  import opened Common

  /** A 32-bit register, least significant bit first. */
  type Word = w: seq<bool> | |w| == 32 witness seq(32, i => false)

  /** The low `width` bits of `n`. */
  function Bits(n: nat, width: nat): (r: seq<bool>)
    ensures |r| == width
  {
    if width == 0 then [] else [n % 2 == 1] + Bits(n / 2, width - 1)
  }

  function Value(bits: seq<bool>): (r: nat)
    ensures |bits| == 32 ==> r < 0x1_0000_0000
  {
    ValueBound(bits);
    Pow2Of32();
    Sum(bits)
  }

  function Sum(bits: seq<bool>): (r: nat)
  {
    if bits == [] then 0 else (if bits[0] then 1 else 0) + 2 * Sum(bits[1..])
  }

  function Pow2(n: nat): (r: nat)
  {
    if n == 0 then 1 else 2 * Pow2(n - 1)
  }

  lemma Pow2Of32()
    ensures Pow2(32) == 0x1_0000_0000
  {
    assert Pow2(8) == 0x100;
    assert Pow2(16) == 0x1_0000;
    assert Pow2(24) == 0x100_0000;
  }

  lemma {:induction false} ValueBound(bits: seq<bool>)
    ensures Sum(bits) < Pow2(|bits|)
  {
    if bits != [] {
      ValueBound(bits[1..]);
    }
  }

  function Xor(a: Word, b: Word): (r: Word)
  {
    seq(32, i requires 0 <= i < 32 => a[i] != b[i])
  }

  function Not(a: Word): (r: Word)
  {
    seq(32, i requires 0 <= i < 32 => !a[i])
  }

  /** 0xEDB88320, least significant bit first. */
  const POLYNOMIAL: Word := [
    false, false, false, false, false, true, false, false,
    true, true, false, false, false, false, false, true,
    false, false, false, true, true, true, false, true,
    true, false, true, true, false, true, true, true]

  function Shifted(c: Word): (r: Word)
  {
    c[1..] + [false]
  }

  /** One bit of input divides the register once. */
  function Divide(c: Word, bit: bool, polynomial: Word): (r: Word)
  {
    if c[0] != bit then Xor(Shifted(c), polynomial) else Shifted(c)
  }

  function One(c: Word, bit: bool): (r: Word)
  {
    Divide(c, bit, POLYNOMIAL)
  }

  function Feed(c: Word, bits: seq<bool>): (r: Word)
    decreases |bits|
  {
    if bits == [] then c else Feed(One(c, bits[0]), bits[1..])
  }

  /** The eight bits of a byte, least significant first. */
  function ByteBits(b: Byte): (r: seq<bool>)
  {
    [b % 2 == 1, b / 2 % 2 == 1, b / 2 / 2 % 2 == 1, b / 2 / 2 / 2 % 2 == 1,
     b / 2 / 2 / 2 / 2 % 2 == 1, b / 2 / 2 / 2 / 2 / 2 % 2 == 1,
     b / 2 / 2 / 2 / 2 / 2 / 2 % 2 == 1, b / 2 / 2 / 2 / 2 / 2 / 2 / 2 % 2 == 1]
  }

  function Fold(c: Word, data: seq<Byte>): (r: Word)
    decreases |data|
  {
    if data == [] then c else Fold(Feed(c, ByteBits(data[0])), data[1..])
  }

  /** The checksum of `data` carried on from `start`. */
  function Crc(data: seq<Byte>, start: nat): (r: nat)
    ensures r < 0x1_0000_0000
  {
    Value(Not(Fold(Not(Bits(start, 32)), data)))
  }

  lemma {:induction false} FoldAppend(c: Word, a: seq<Byte>, b: seq<Byte>)
    ensures Fold(c, a + b) == Fold(Fold(c, a), b)
    decreases |a|
  {
    if a == [] {
      assert a + b == b;
    } else {
      assert (a + b)[1..] == a[1..] + b;
      FoldAppend(Feed(c, ByteBits(a[0])), a[1..], b);
    }
  }

  lemma {:induction false} BitsSum(bits: seq<bool>)
    ensures Bits(Sum(bits), |bits|) == bits
  {
    if bits != [] {
      BitsSum(bits[1..]);
    }
  }

  lemma {:induction false} SumBits(n: nat, width: nat)
    requires n < Pow2(width)
    ensures Sum(Bits(n, width)) == n
  {
    if width > 0 {
      SumBits(n / 2, width - 1);
      assert Bits(n, width)[1..] == Bits(n / 2, width - 1);
    }
  }

  lemma NotNot(c: Word)
    ensures Not(Not(c)) == c
  {
  }

  /** The checksum taken chunk by chunk is the checksum of the whole. */
  lemma CrcAppend(a: seq<Byte>, b: seq<Byte>, start: nat)
    ensures Crc(a + b, start) == Crc(b, Crc(a, start))
  {
    var first := Not(Bits(start, 32));
    FoldAppend(first, a, b);
    BitsSum(Not(Fold(first, a)));
    NotNot(Fold(first, a));
  }

  lemma CrcNothing(start: nat)
    requires start < 0x1_0000_0000
    ensures Crc([], start) == start
  {
    NotNot(Bits(start, 32));
    Pow2Of32();
    SumBits(start, 32);
  }

  // ------------------------------------------------------------------- what a checksum tells apart

  lemma {:induction false} FeedAppend(c: Word, a: seq<bool>, b: seq<bool>)
    ensures Feed(c, a + b) == Feed(Feed(c, a), b)
    decreases |a|
  {
    if a == [] {
      assert a + b == b;
    } else {
      assert (a + b)[0] == a[0] && (a + b)[1..] == a[1..] + b;
      FeedAppend(One(c, a[0]), a[1..], b);
    }
  }

  lemma FeedLast(c: Word, bits: seq<bool>)
    requires bits != []
    ensures Feed(c, bits) == One(Feed(c, bits[..|bits| - 1]), bits[|bits| - 1])
  {
    var front, last := bits[..|bits| - 1], bits[|bits| - 1];
    FeedAppend(c, front, [last]);
    assert front + [last] == bits;
    assert [last][1..] == [];
  }

  lemma DivideBack(c: Word, d: Word, x: bool, y: bool, p: Word)
    requires p[31] && Divide(c, x, p)[31] == Divide(d, y, p)[31]
    ensures (c[0] != x) == (d[0] != y)
    ensures forall i :: 0 <= i < 31 ==> (Divide(c, x, p)[i] == Divide(d, y, p)[i] <==> c[i + 1] == d[i + 1])
  {
  }

  /** Equal results fired alike, so the registers before agreed above the lowest bit. */
  lemma OneBack(c: Word, d: Word, x: bool, y: bool)
    requires One(c, x)[31] == One(d, y)[31]
    ensures (c[0] != x) == (d[0] != y)
    ensures forall i :: 0 <= i < 31 ==> (One(c, x)[i] == One(d, y)[i] <==> c[i + 1] == d[i + 1])
  {
    DivideBack(c, d, x, y, POLYNOMIAL);
  }

  /** Fewer than 32 steps from a common register cannot leave a highest difference this low. */
  lemma {:induction false} NoLowDifference(c: Word, a: seq<bool>, b: seq<bool>, k: nat)
    requires |a| == |b| && k + |a| <= 31
    requires forall i :: k < i < 32 ==> Feed(c, a)[i] == Feed(c, b)[i]
    ensures Feed(c, a)[k] == Feed(c, b)[k]
    decreases |a|
  {
    if a != [] && Feed(c, a)[k] != Feed(c, b)[k] {
      var f, g, x, y := a[..|a| - 1], b[..|b| - 1], a[|a| - 1], b[|b| - 1];
      FeedLast(c, a);
      FeedLast(c, b);
      OneBack(Feed(c, f), Feed(c, g), x, y);
      forall i | k + 1 < i < 32 ensures Feed(c, f)[i] == Feed(c, g)[i] {
        assert Feed(c, a)[i - 1] == Feed(c, b)[i - 1];
      }
      NoLowDifference(c, f, g, k + 1);
    }
  }

  /** Two different runs of at most 32 bits never leave the same register. */
  lemma {:induction false} BitBurst(c: Word, a: seq<bool>, b: seq<bool>)
    requires |a| == |b| <= 32 && Feed(c, a) == Feed(c, b)
    ensures a == b
    decreases |a|
  {
    if a != [] {
      var f, g, x, y := a[..|a| - 1], b[..|b| - 1], a[|a| - 1], b[|b| - 1];
      FeedLast(c, a);
      FeedLast(c, b);
      OneBack(Feed(c, f), Feed(c, g), x, y);
      forall i | 0 < i < 32 ensures Feed(c, f)[i] == Feed(c, g)[i] {
        assert Feed(c, a)[i - 1] == Feed(c, b)[i - 1];
      }
      NoLowDifference(c, f, g, 0);
      assert Feed(c, f) == Feed(c, g);
      BitBurst(c, f, g);
      assert a == f + [x] && b == g + [y];
    }
  }

  lemma {:induction false} FeedInjective(c: Word, d: Word, bits: seq<bool>)
    requires Feed(c, bits) == Feed(d, bits)
    ensures c == d
    decreases |bits|
  {
    if bits != [] {
      FeedInjective(One(c, bits[0]), One(d, bits[0]), bits[1..]);
      OneBack(c, d, bits[0], bits[0]);
      forall i | 0 < i < 32 ensures c[i] == d[i] {
        assert One(c, bits[0])[i - 1] == One(d, bits[0])[i - 1];
      }
      assert c == d;
    }
  }

  function Stream(data: seq<Byte>): (r: seq<bool>)
    ensures |r| == 8 * |data|
  {
    if data == [] then [] else ByteBits(data[0]) + Stream(data[1..])
  }

  lemma {:induction false} FoldIsFeed(c: Word, data: seq<Byte>)
    ensures Fold(c, data) == Feed(c, Stream(data))
    decreases |data|
  {
    if data != [] {
      FeedAppend(c, ByteBits(data[0]), Stream(data[1..]));
      FoldIsFeed(Feed(c, ByteBits(data[0])), data[1..]);
    }
  }

  lemma {:induction false} StreamInjective(a: seq<Byte>, b: seq<Byte>)
    requires |a| == |b| && Stream(a) == Stream(b)
    ensures a == b
  {
    if a != [] {
      assert Stream(a)[..8] == ByteBits(a[0]) && Stream(b)[..8] == ByteBits(b[0]);
      assert Stream(a)[8..] == Stream(a[1..]) && Stream(b)[8..] == Stream(b[1..]);
      ByteInjective(a[0], b[0]);
      StreamInjective(a[1..], b[1..]);
      assert a == [a[0]] + a[1..] && b == [b[0]] + b[1..];
    }
  }

  lemma HalvesAgree(a: nat, b: nat)
    requires a / 2 == b / 2 && (a % 2 == 1) == (b % 2 == 1)
    ensures a == b
  {
  }

  lemma NibbleInjective(a: nat, b: nat)
    requires a / 2 / 2 / 2 / 2 == b / 2 / 2 / 2 / 2
    requires (a % 2 == 1) == (b % 2 == 1) && (a / 2 % 2 == 1) == (b / 2 % 2 == 1)
    requires (a / 2 / 2 % 2 == 1) == (b / 2 / 2 % 2 == 1) && (a / 2 / 2 / 2 % 2 == 1) == (b / 2 / 2 / 2 % 2 == 1)
    ensures a == b
  {
    HalvesAgree(a / 2 / 2 / 2, b / 2 / 2 / 2);
    HalvesAgree(a / 2 / 2, b / 2 / 2);
    HalvesAgree(a / 2, b / 2);
    HalvesAgree(a, b);
  }

  lemma Halved(a: nat, limit: nat)
    requires a < 2 * limit
    ensures a / 2 < limit
  {
  }

  lemma TopNibble(b: Byte)
    ensures b / 2 / 2 / 2 / 2 < 16 && b / 2 / 2 / 2 / 2 / 2 / 2 / 2 / 2 == 0
  {
    Halved(b, 128);
    Halved(b / 2, 64);
    Halved(b / 2 / 2, 32);
    Halved(b / 2 / 2 / 2, 16);
    var n: nat := b / 2 / 2 / 2 / 2;
    Halved(n, 8);
    Halved(n / 2, 4);
    Halved(n / 2 / 2, 2);
    Halved(n / 2 / 2 / 2, 1);
  }

  lemma ByteInjective(a: Byte, b: Byte)
    requires ByteBits(a) == ByteBits(b)
    ensures a == b
  {
    var s, t := ByteBits(a), ByteBits(b);
    assert s[0] == t[0] && s[1] == t[1] && s[2] == t[2] && s[3] == t[3];
    assert s[4] == t[4] && s[5] == t[5] && s[6] == t[6] && s[7] == t[7];
    TopNibble(a);
    TopNibble(b);
    NibbleInjective(a / 2 / 2 / 2 / 2, b / 2 / 2 / 2 / 2);
    NibbleInjective(a, b);
  }

  /** Contents that differ only within four consecutive bytes have different checksums. */
  lemma BurstDetected(front: seq<Byte>, x: seq<Byte>, y: seq<Byte>, back: seq<Byte>)
    requires |x| == |y| <= 4 && x != y
    ensures Crc(front + x + back, 0) != Crc(front + y + back, 0)
  {
    var start := Not(Bits(0, 32));
    var c := Fold(start, front);
    FoldAppend(start, front + x, back);
    FoldAppend(start, front + y, back);
    FoldAppend(start, front, x);
    FoldAppend(start, front, y);
    var r, s := Fold(Fold(c, x), back), Fold(Fold(c, y), back);
    if Crc(front + x + back, 0) == Crc(front + y + back, 0) {
      BitsSum(Not(r));
      BitsSum(Not(s));
      NotNot(r);
      NotNot(s);
      FoldIsFeed(Fold(c, x), back);
      FoldIsFeed(Fold(c, y), back);
      FeedInjective(Fold(c, x), Fold(c, y), Stream(back));
      FoldIsFeed(c, x);
      FoldIsFeed(c, y);
      BitBurst(c, Stream(x), Stream(y));
      StreamInjective(x, y);
    }
  }
}

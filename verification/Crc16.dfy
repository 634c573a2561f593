/**
 * CRC-16/CCITT-FALSE: polynomial 0x1021, initial value 0xFFFF, no reflection, no final xor.
 * A u16 is its sixteen bits, most significant first.
 */
module Crc16 {
  import opened Bytes

  type Bits = seq<bool>

  type Word = w: seq<bool> | |w| == 16
    witness [false, false, false, false, false, false, false, false, false, false, false, false, false, false, false,
             false]

  const CRC_INIT: Word :=
    [true, true, true, true, true, true, true, true,
     true, true, true, true, true, true, true, true]

  /** 0x1021. */
  const POLY: Word :=
    [false, false, false, true, false, false, false, false,
     false, false, true, false, false, false, false, true]

  const ZERO: Word :=
    [false, false, false, false, false, false, false, false,
     false, false, false, false, false, false, false, false]

  function Zeros(n: nat): (z: Bits)
    ensures |z| == n
  {
    seq(n, i => false)
  }

  function Xor(a: Word, b: Word): (x: Word)
    ensures forall i :: 0 <= i < 16 ==> x[i] == (a[i] != b[i])
  {
    seq(16, i requires 0 <= i < 16 => a[i] != b[i])
  }

  function ShiftLeft(c: Word): Word {
    c[1..] + [false]
  }

  /** One turn of the inner loop. */
  function ShiftBit(c: Word): Word {
    if c[0] then Xor(ShiftLeft(c), POLY) else ShiftLeft(c)
  }

  function Shift(c: Word, n: nat): Word
    decreases n
  {
    if n == 0 then c else Shift(ShiftBit(c), n - 1)
  }

  /** The k low bits of n. */
  function ToBits(n: nat, k: nat): (s: Bits)
    ensures |s| == k
  {
    if k == 0 then [] else ToBits(n / 2, k - 1) + [n % 2 == 1]
  }

  function FromBits(s: Bits): nat {
    if s == [] then 0 else 2 * FromBits(s[..|s| - 1]) + (if s[|s| - 1] then 1 else 0)
  }

  function Pow2(k: nat): (p: nat)
    ensures p > 0
  {
    if k == 0 then 1 else 2 * Pow2(k - 1)
  }

  lemma {:induction false} FromBitsRoundTrip(s: Bits)
    ensures FromBits(s) < Pow2(|s|) && ToBits(FromBits(s), |s|) == s
  {
    if s != [] {
      FromBitsRoundTrip(s[..|s| - 1]);
      var n := FromBits(s);
      assert n / 2 == FromBits(s[..|s| - 1]) && (n % 2 == 1) == s[|s| - 1];
    }
  }

  lemma {:induction false} ToBitsRoundTrip(n: nat, k: nat)
    requires n < Pow2(k)
    ensures FromBits(ToBits(n, k)) == n
  {
    if k > 0 {
      ToBitsRoundTrip(n / 2, k - 1);
      assert ToBits(n, k)[..k - 1] == ToBits(n / 2, k - 1);
    }
  }

  lemma EightBits()
    ensures Pow2(8) == 256
  {
    assert Pow2(4) == 2 * (2 * Pow2(2));
    assert Pow2(6) == 2 * (2 * Pow2(4));
    assert Pow2(8) == 2 * (2 * Pow2(6));
  }

  /** The eight bits of a byte. */
  function ByteBits(b: byte): (s: Bits)
    ensures |s| == 8
  {
    ToBits(b, 8)
  }

  /** The byte with the given eight bits. */
  function ByteOfBits(s: Bits): (b: byte)
    requires |s| == 8
    ensures ByteBits(b) == s
  {
    FromBitsRoundTrip(s);
    EightBits();
    FromBits(s)
  }

  /** All bits of a byte string, in transmission order. */
  function BitsOf(data: seq<byte>): (s: Bits)
    ensures |s| == 8 * |data|
  {
    if data == [] then [] else ByteBits(data[0]) + BitsOf(data[1..])
  }

  /** Big-endian reading of two bytes. */
  function FromBytes(hi: byte, lo: byte): Word {
    ByteBits(hi) + ByteBits(lo)
  }

  function ToBytes(crc: Word): (s: seq<byte>)
    ensures |s| == 2 && FromBytes(s[0], s[1]) == crc
  {
    [ByteOfBits(crc[..8]), ByteOfBits(crc[8..])]
  }

  /** The register after one byte: xor it into the high half, then shift eight times. */
  function CrcByte(c: Word, b: byte): Word {
    Shift(Xor(c, ByteBits(b) + Zeros(8)), 8)
  }

  function CrcFrom(c: Word, data: seq<byte>): Word
    decreases |data|
  {
    if data == [] then c else CrcFrom(CrcByte(c, data[0]), data[1..])
  }

  /** The program's two nested loops compute the register that feeding the bytes one by one defines. */
  method Crc16CcittFalse(data: seq<byte>) returns (crc: Word)
    ensures crc == CrcFrom(CRC_INIT, data)
  {
    hide Xor, ByteBits, Zeros, ShiftLeft;
    crc := CRC_INIT;
    assert data[0..] == data;
    for i := 0 to |data|
      invariant CrcFrom(crc, data[i..]) == CrcFrom(CRC_INIT, data)
    {
      assert data[i..][0] == data[i] && data[i..][1..] == data[i + 1..];
      ghost var fed := CrcByte(crc, data[i]);
      crc := Xor(crc, ByteBits(data[i]) + Zeros(8));
      for k := 0 to 8
        invariant Shift(crc, 8 - k) == fed
      {
        crc := if crc[0] then Xor(ShiftLeft(crc), POLY) else ShiftLeft(crc);
      }
    }
  }

  /** What the serial decoder checks: the last two bytes are the CRC of everything before them. */
  predicate Passes(codeword: seq<byte>)
    requires |codeword| >= 2
  {
    FromBytes(codeword[|codeword| - 2], codeword[|codeword| - 1]) == CrcFrom(CRC_INIT, codeword[..|codeword| - 2])
  }

  // ---- the register fed bit by bit ----

  /** Shift in one message bit. */
  function BitStep(c: Word, bit: bool): Word {
    if c[0] != bit then Xor(ShiftLeft(c), POLY) else ShiftLeft(c)
  }

  function FeedBits(c: Word, bits: Bits): Word
    decreases |bits|
  {
    if bits == [] then c else FeedBits(BitStep(c, bits[0]), bits[1..])
  }

  lemma ShiftOfXor(c: Word, w: Word)
    ensures ShiftBit(Xor(c, w)) == Xor(BitStep(c, w[0]), ShiftLeft(w))
  {
  }

  /** Xoring up to sixteen bits into the top of the register and shifting them out feeds them one by one. */
  lemma {:induction false} ShiftIsFeed(c: Word, bits: Bits)
    requires |bits| <= 16
    ensures Shift(Xor(c, bits + Zeros(16 - |bits|)), |bits|) == FeedBits(c, bits)
    decreases |bits|
  {
    hide ShiftBit, BitStep;
    var w := bits + Zeros(16 - |bits|);
    if bits == [] {
      assert Xor(c, w) == c;
    } else {
      ShiftOfXor(c, w);
      assert ShiftLeft(w) == bits[1..] + Zeros(16 - |bits[1..]|);
      ShiftIsFeed(BitStep(c, bits[0]), bits[1..]);
    }
  }

  lemma {:induction false} FeedAppend(c: Word, a: Bits, b: Bits)
    ensures FeedBits(c, a + b) == FeedBits(FeedBits(c, a), b)
    decreases |a|
  {
    hide BitStep;
    if a == [] {
      assert a + b == b;
    } else {
      assert (a + b)[1..] == a[1..] + b;
      FeedAppend(BitStep(c, a[0]), a[1..], b);
    }
  }

  lemma {:induction false} BitsOfAppend(a: seq<byte>, b: seq<byte>)
    ensures BitsOf(a + b) == BitsOf(a) + BitsOf(b)
  {
    hide ByteBits;
    if a == [] {
      assert a + b == b;
    } else {
      assert (a + b)[1..] == a[1..] + b;
      BitsOfAppend(a[1..], b);
    }
  }

  /** The byte-wise CRC is the bit-wise one. */
  lemma {:induction false} CrcIsFeed(c: Word, data: seq<byte>)
    ensures CrcFrom(c, data) == FeedBits(c, BitsOf(data))
    decreases |data|
  {
    hide ByteBits, BitStep, Shift;
    if data != [] {
      ShiftIsFeed(c, ByteBits(data[0]));
      CrcIsFeed(CrcByte(c, data[0]), data[1..]);
      FeedAppend(c, ByteBits(data[0]), BitsOf(data[1..]));
    }
  }

  // ---- the register never merges two states ----

  lemma BitStepInjective(c: Word, d: Word, bit: bool)
    requires BitStep(c, bit) == BitStep(d, bit)
    ensures c == d
  {
    var e, f := BitStep(c, bit), BitStep(d, bit);
    assert e[15] == (c[0] != bit) && f[15] == (d[0] != bit);
    forall i | 1 <= i < 16
      ensures c[i] == d[i]
    {
      assert e[i - 1] == f[i - 1];
    }
  }

  lemma {:induction false} FeedInjective(c: Word, d: Word, bits: Bits)
    requires FeedBits(c, bits) == FeedBits(d, bits)
    ensures c == d
    decreases |bits|
  {
    hide BitStep;
    if bits != [] {
      FeedInjective(BitStep(c, bits[0]), BitStep(d, bits[0]), bits[1..]);
      BitStepInjective(c, d, bits[0]);
    }
  }

  lemma {:induction false} FeedZeros(n: nat)
    ensures FeedBits(ZERO, Zeros(n)) == ZERO
  {
    if n > 0 {
      assert BitStep(ZERO, false) == ZERO;
      assert Zeros(n)[1..] == Zeros(n - 1);
      FeedZeros(n - 1);
    }
  }

  /** Feeding a whole word is feeding zeros to the register xored with it. */
  lemma FeedWord(c: Word, w: Word)
    ensures FeedBits(c, w) == FeedBits(Xor(c, w), Zeros(16))
  {
    hide FeedBits, Shift;
    ShiftIsFeed(c, w);
    assert w + Zeros(0) == w;
    ShiftIsFeed(Xor(c, w), Zeros(16));
    assert Zeros(16) + Zeros(0) == Zeros(16);
    assert Xor(Xor(c, w), Zeros(16)) == Xor(c, w);
  }

  lemma XorInjective(c: Word, u: Word, v: Word)
    requires Xor(c, u) == Xor(c, v)
    ensures u == v
  {
    var x, y := Xor(c, u), Xor(c, v);
    forall i | 0 <= i < 16
      ensures u[i] == v[i]
    {
      assert x[i] == y[i];
    }
  }

  /** From one register, two different words lead to two different registers. */
  lemma FeedWordInjective(c: Word, u: Word, v: Word)
    requires FeedBits(c, u) == FeedBits(c, v)
    ensures u == v
  {
    hide FeedBits;
    FeedWord(c, u);
    FeedWord(c, v);
    FeedInjective(Xor(c, u), Xor(c, v), Zeros(16));
    XorInjective(c, u, v);
  }

  /** The one word that brings the register to zero is the register itself. */
  lemma FeedToZero(c: Word, w: Word)
    ensures FeedBits(c, w) == ZERO <==> w == c
  {
    hide FeedBits;
    FeedWord(c, c);
    assert Xor(c, c) == ZERO;
    FeedZeros(16);
    if FeedBits(c, w) == ZERO {
      FeedWordInjective(c, w, c);
    }
  }

  // ---- what the CRC detects ----

  /** A message followed by two bytes leaves the register at zero exactly when the two bytes are its big-endian CRC. */
  lemma ResidueZero(c: Word, payload: seq<byte>, hi: byte, lo: byte)
    ensures CrcFrom(c, payload + [hi, lo]) == ZERO <==> FromBytes(hi, lo) == CrcFrom(c, payload)
  {
    hide CrcFrom, FeedBits, ByteBits;
    CrcIsFeed(c, payload + [hi, lo]);
    CrcIsFeed(c, payload);
    BitsOfAppend(payload, [hi, lo]);
    assert BitsOf([hi, lo]) == FromBytes(hi, lo) by {
      assert [hi, lo][1..] == [lo] && [lo][1..] == [];
    }
    FeedAppend(c, BitsOf(payload), FromBytes(hi, lo));
    FeedToZero(CrcFrom(c, payload), FromBytes(hi, lo));
  }

  /** The decoder's check is the residue check. */
  lemma PassesIsResidue(codeword: seq<byte>)
    requires |codeword| >= 2
    ensures Passes(codeword) <==> FeedBits(CRC_INIT, BitsOf(codeword)) == ZERO
  {
    hide FromBytes, CrcFrom, FeedBits, BitsOf;
    var n := |codeword| - 2;
    assert codeword == codeword[..n] + [codeword[n], codeword[n + 1]];
    ResidueZero(CRC_INIT, codeword[..n], codeword[n], codeword[n + 1]);
    CrcIsFeed(CRC_INIT, codeword);
  }

  /** The encoder's codewords pass. */
  lemma EncodedPasses(payload: seq<byte>)
    ensures Passes(payload + ToBytes(CrcFrom(CRC_INIT, payload)))
  {
    hide FromBytes, CrcFrom, ToBytes;
    assert (payload + ToBytes(CrcFrom(CRC_INIT, payload)))[..|payload|] == payload;
  }

  /** Any change confined to sixteen consecutive bits of a codeword of any length, CRC bits included, is detected. */
  lemma BurstDetected(x: seq<byte>, y: seq<byte>, i: nat)
    requires |x| == |y| && |x| >= 2 && i + 16 <= 8 * |x|
    requires BitsOf(x) != BitsOf(y)
    requires BitsOf(x)[..i] == BitsOf(y)[..i] && BitsOf(x)[i + 16..] == BitsOf(y)[i + 16..]
    requires Passes(x)
    ensures !Passes(y)
  {
    hide FeedBits, Passes, BitsOf;
    PassesIsResidue(x);
    PassesIsResidue(y);
    var p, q := BitsOf(x), BitsOf(y);
    var u: Word, v: Word := p[i..i + 16], q[i..i + 16];
    assert p == (p[..i] + u) + p[i + 16..] && q == (q[..i] + v) + q[i + 16..];
    var r := FeedBits(CRC_INIT, p[..i]);
    FeedAppend(CRC_INIT, p[..i] + u, p[i + 16..]);
    FeedAppend(CRC_INIT, q[..i] + v, q[i + 16..]);
    FeedAppend(CRC_INIT, p[..i], u);
    FeedAppend(CRC_INIT, q[..i], v);
    if Passes(y) {
      FeedInjective(FeedBits(r, u), FeedBits(r, v), p[i + 16..]);
      FeedWordInjective(r, u, v);
    }
  }

  lemma ByteBitsInjective(a: byte, b: byte)
    requires ByteBits(a) == ByteBits(b)
    ensures a == b
  {
    EightBits();
    ToBitsRoundTrip(a, 8);
    ToBitsRoundTrip(b, 8);
  }

  lemma {:induction false} BitsOfInjective(a: seq<byte>, b: seq<byte>)
    requires |a| == |b| && BitsOf(a) == BitsOf(b)
    ensures a == b
  {
    hide ByteBits;
    if a != [] {
      assert ByteBits(a[0]) == BitsOf(a)[..8] && BitsOf(a[1..]) == BitsOf(a)[8..];
      assert ByteBits(b[0]) == BitsOf(b)[..8] && BitsOf(b[1..]) == BitsOf(b)[8..];
      ByteBitsInjective(a[0], b[0]);
      BitsOfInjective(a[1..], b[1..]);
      assert a == [a[0]] + a[1..] && b == [b[0]] + b[1..];
    }
  }

  /** In bytes: any change confined to two adjacent bytes of a codeword makes the decoder's check fail. */
  lemma AdjacentBytesDetected(x: seq<byte>, y: seq<byte>, i: nat)
    requires |x| == |y| && i + 2 <= |x| && x != y
    requires x[..i] == y[..i] && x[i + 2..] == y[i + 2..]
    requires Passes(x)
    ensures !Passes(y)
  {
    hide Passes, BitsOf;
    assert x == x[..i] + (x[i..i + 2] + x[i + 2..]) && y == y[..i] + (y[i..i + 2] + y[i + 2..]);
    BitsOfAppend(x[..i], x[i..i + 2] + x[i + 2..]);
    BitsOfAppend(y[..i], y[i..i + 2] + y[i + 2..]);
    BitsOfAppend(x[i..i + 2], x[i + 2..]);
    BitsOfAppend(y[i..i + 2], y[i + 2..]);
    assert BitsOf(x)[..8 * i] == BitsOf(x[..i]) && BitsOf(x)[8 * i + 16..] == BitsOf(x[i + 2..]);
    assert BitsOf(y)[..8 * i] == BitsOf(y[..i]) && BitsOf(y)[8 * i + 16..] == BitsOf(y[i + 2..]);
    if BitsOf(x) == BitsOf(y) {
      BitsOfInjective(x, y);
    }
    BurstDetected(x, y, 8 * i);
  }

  // ---- odd numbers of flipped bits ----

  /** True iff the number of one bits is odd. */
  function Odd(bits: Bits): bool {
    if bits == [] then false else bits[0] != Odd(bits[1..])
  }

  lemma {:induction false} OddAppend(a: Bits, b: Bits)
    ensures Odd(a + b) == (Odd(a) != Odd(b))
  {
    if a == [] {
      assert a + b == b;
    } else {
      assert (a + b)[1..] == a[1..] + b;
      OddAppend(a[1..], b);
    }
  }

  lemma {:induction false} OddOfXor(a: Bits, b: Bits, x: Bits)
    requires |a| == |b| == |x| && forall i :: 0 <= i < |a| ==> x[i] == (a[i] != b[i])
    ensures Odd(x) == (Odd(a) != Odd(b))
  {
    if a != [] {
      OddOfXor(a[1..], b[1..], x[1..]);
    }
  }

  lemma {:induction false} OddOfConstant(n: nat, bit: bool)
    ensures Odd(seq(n, i => bit)) == (bit && n % 2 == 1)
  {
    if n > 0 {
      assert seq(n, i => bit)[1..] == seq(n - 1, i => bit);
      OddOfConstant(n - 1, bit);
    }
  }

  lemma OddOfPoly()
    ensures Odd(POLY)
  {
    var one := seq(1, i => true);
    assert POLY == Zeros(3) + (one + (Zeros(6) + (one + (Zeros(4) + one))));
    OddAppend(Zeros(3), one + (Zeros(6) + (one + (Zeros(4) + one))));
    OddAppend(one, Zeros(6) + (one + (Zeros(4) + one)));
    OddAppend(Zeros(6), one + (Zeros(4) + one));
    OddAppend(one, Zeros(4) + one);
    OddAppend(Zeros(4), one);
    OddOfConstant(1, true);
    OddOfConstant(3, false);
    OddOfConstant(4, false);
    OddOfConstant(6, false);
  }

  /** The full polynomial has an even number of terms, so a step changes the parity only by the message bit. */
  lemma BitStepParity(c: Word, bit: bool)
    ensures Odd(BitStep(c, bit)) == (Odd(c) != bit)
  {
    OddAppend(c[1..], [false]);
    assert [false][1..] == [];
    OddOfPoly();
    OddOfXor(ShiftLeft(c), POLY, Xor(ShiftLeft(c), POLY));
  }

  lemma {:induction false} FeedParity(c: Word, bits: Bits)
    ensures Odd(FeedBits(c, bits)) == (Odd(c) != Odd(bits))
    decreases |bits|
  {
    hide BitStep;
    if bits != [] {
      BitStepParity(c, bits[0]);
      FeedParity(BitStep(c, bits[0]), bits[1..]);
    }
  }

  /** A codeword that passes has an even number of one bits, so an odd number of flipped bits, anywhere, is detected. */
  lemma OddFlipsDetected(x: seq<byte>, y: seq<byte>)
    requires |x| >= 2 && |y| >= 2 && Passes(x) && Odd(BitsOf(x)) != Odd(BitsOf(y))
    ensures !Odd(BitsOf(x)) && !Passes(y)
  {
    hide Passes, BitsOf, FeedBits, Odd;
    PassesIsResidue(x);
    PassesIsResidue(y);
    FeedParity(CRC_INIT, BitsOf(x));
    FeedParity(CRC_INIT, BitsOf(y));
    OddOfConstant(16, true);
    OddOfConstant(16, false);
    assert CRC_INIT == seq(16, i => true) && ZERO == seq(16, i => false);
  }

  // ---- the start value and the polynomial ----

  lemma BytesOfWord(hi: byte, lo: byte)
    ensures ToBytes(FromBytes(hi, lo)) == [hi, lo]
  {
    hide ByteBits;
    var s := ToBytes(FromBytes(hi, lo));
    assert ByteBits(s[0]) == FromBytes(s[0], s[1])[..8] && ByteBits(hi) == FromBytes(hi, lo)[..8];
    assert ByteBits(s[1]) == FromBytes(s[0], s[1])[8..] && ByteBits(lo) == FromBytes(hi, lo)[8..];
    ByteBitsInjective(s[0], hi);
    ByteBitsInjective(s[1], lo);
  }

  /** The register starts with all ones: two bytes of ones, and no others, cancel it. */
  lemma StartsWithOnes(hi: byte, lo: byte)
    ensures CrcFrom(CRC_INIT, [hi, lo]) == ZERO <==> hi == 0xFF && lo == 0xFF
  {
    hide CrcFrom, ByteBits;
    ResidueZero(CRC_INIT, [], hi, lo);
    assert [] + [hi, lo] == [hi, lo];
    assert CrcFrom(CRC_INIT, []) == CRC_INIT by { CrcOfNothing(CRC_INIT); }
    AllOnes();
    if FromBytes(hi, lo) == CRC_INIT {
      assert FromBytes(hi, lo) == FromBytes(0xFF, 0xFF);
      BytesOfWord(hi, lo);
      BytesOfWord(0xFF, 0xFF);
    }
  }

  lemma CrcOfNothing(c: Word)
    ensures CrcFrom(c, []) == c
  {
  }

  lemma AllOnes()
    ensures FromBytes(0xFF, 0xFF) == CRC_INIT
  {
    assert ByteBits(0xFF) == [true, true, true, true, true, true, true, true];
  }

  lemma BitsOf0x10()
    ensures ByteBits(0x10) == [false, false, false, true, false, false, false, false]
  {
  }

  lemma BitsOf0x21()
    ensures ByteBits(0x21) == [false, false, true, false, false, false, false, true]
  {
  }

  /** The polynomial is what a single one leaves in an empty register: 0x1021. */
  lemma OneLeavesPolynomial()
    ensures FeedBits(ZERO, [true]) == FromBytes(0x10, 0x21)
  {
    BitsOf0x10();
    BitsOf0x21();
    hide ByteBits;
    assert FromBytes(0x10, 0x21) == POLY;
    assert Xor(ShiftLeft(ZERO), POLY) == POLY;
    hide FromBytes, Xor, ShiftLeft;
    assert [true][1..] == [] && ZERO[0] != true;
  }
}

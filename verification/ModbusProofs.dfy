/** Error detection and round trips of the Modbus frame check. */
module ModbusProofs {
  import opened ShiftRegister
  import opened Modbus

  // ---- CRC-16 as a linear, invertible shift register ----

  /** The inverse of the shift step: the top bit tells whether the polynomial was added. */
  function UnshiftBit(crc: bv16): bv16 {
    if crc & 0x8000 != 0 then ((crc ^ 0xA001) << 1) | 1 else crc << 1
  }

  function Xor(x: bv16, y: bv16): bv16 { x ^ y }

  function LowBit(v: bv16): bv16 { v & 1 }

  function UpperBits(v: bv16): bv16 { v >> 1 }

  const WORD_BITS: nat := 16

  function Crc16Register(): Register<bv16> {
    Register(ShiftBit, UnshiftBit, Xor, 0, LowBit, UpperBits)
  }

  lemma OddShiftSetsTop(x: bv16)
    requires x & 1 != 0
    ensures ((x >> 1) ^ 0xA001) & 0x8000 != 0
  {
  }

  lemma OddShiftBack(x: bv16)
    requires x & 1 != 0
    ensures ((((x >> 1) ^ 0xA001) ^ 0xA001) << 1) | 1 == x
  {
  }

  lemma EvenShiftBack(x: bv16)
    requires x & 1 == 0
    ensures (x >> 1) & 0x8000 == 0 && (x >> 1) << 1 == x
  {
  }

  lemma UnshiftOdd(x: bv16)
    requires x & 1 != 0
    ensures UnshiftBit((x >> 1) ^ 0xA001) == x
  {
    OddShiftSetsTop(x);
    OddShiftBack(x);
  }

  lemma UnshiftEven(x: bv16)
    requires x & 1 == 0
    ensures UnshiftBit(x >> 1) == x
  {
    EvenShiftBack(x);
  }

  /** Shifting can be undone, so no two register contents ever merge. */
  lemma UnshiftUndoesShift(x: bv16)
    ensures UnshiftBit(ShiftBit(x)) == x
  {
    if x & 1 != 0 {
      UnshiftOdd(x);
    } else {
      UnshiftEven(x);
    }
  }

  lemma OddOdd(x: bv16, y: bv16)
    requires x & 1 != 0 && y & 1 != 0
    ensures (x ^ y) & 1 == 0
  {
  }

  lemma OddEven(x: bv16, y: bv16)
    requires x & 1 != 0 && y & 1 == 0
    ensures (x ^ y) & 1 != 0
  {
  }

  lemma EvenOdd(x: bv16, y: bv16)
    requires x & 1 == 0 && y & 1 != 0
    ensures (x ^ y) & 1 != 0
  {
  }

  lemma EvenEven(x: bv16, y: bv16)
    requires x & 1 == 0 && y & 1 == 0
    ensures (x ^ y) & 1 == 0
  {
  }

  lemma XorThenShift(x: bv16, y: bv16)
    ensures (x ^ y) >> 1 == (x >> 1) ^ (y >> 1)
  {
  }

  lemma BothPolynomials(x: bv16, y: bv16)
    ensures (x ^ y) >> 1 == ((x >> 1) ^ 0xA001) ^ ((y >> 1) ^ 0xA001)
  {
  }

  lemma OnePolynomial(x: bv16, y: bv16)
    ensures ((x ^ y) >> 1) ^ 0xA001 == ((x >> 1) ^ 0xA001) ^ (y >> 1)
  {
  }

  lemma OtherPolynomial(x: bv16, y: bv16)
    ensures ((x ^ y) >> 1) ^ 0xA001 == (x >> 1) ^ ((y >> 1) ^ 0xA001)
  {
  }

  lemma XorWithZero(u: bv16)
    ensures u ^ 0 == u
  {
  }

  lemma XorIsZero(u: bv16, v: bv16)
    ensures u ^ v == 0 <==> u == v
  {
  }

  lemma OddLinear(x: bv16, y: bv16)
    requires x & 1 != 0
    ensures ShiftBit(x ^ y) == ShiftBit(x) ^ ShiftBit(y)
  {
    if y & 1 != 0 {
      OddOdd(x, y);
      BothPolynomials(x, y);
    } else {
      OddEven(x, y);
      OnePolynomial(x, y);
    }
  }

  lemma EvenLinear(x: bv16, y: bv16)
    requires x & 1 == 0
    ensures ShiftBit(x ^ y) == ShiftBit(x) ^ ShiftBit(y)
  {
    if y & 1 != 0 {
      EvenOdd(x, y);
      OtherPolynomial(x, y);
    } else {
      EvenEven(x, y);
      XorThenShift(x, y);
    }
  }

  lemma ShiftBitLinear(x: bv16, y: bv16)
    ensures ShiftBit(x ^ y) == ShiftBit(x) ^ ShiftBit(y)
  {
    if x & 1 == 0 {
      EvenLinear(x, y);
    } else {
      OddLinear(x, y);
    }
  }

  lemma LinearWith(x: bv16, y: bv16, z: bv16, sx: bv16, sy: bv16, sz: bv16)
    requires z == Xor(x, y) && sx == ShiftBit(x) && sy == ShiftBit(y) && sz == ShiftBit(z)
    requires sz == Xor(sx, sy)
    ensures LinearAt(Crc16Register(), x, y)
  {
  }

  lemma LowBitOfXor(x: bv16, v: bv16)
    ensures (x ^ v) & 1 == (x ^ (v & 1)) & 1
  {
  }

  lemma PeelOdd(x: bv16, v: bv16)
    ensures ((x ^ v) >> 1) ^ 0xA001 == (((x ^ (v & 1)) >> 1) ^ 0xA001) ^ (v >> 1)
  {
  }

  lemma PeelEven(x: bv16, v: bv16)
    ensures (x ^ v) >> 1 == ((x ^ (v & 1)) >> 1) ^ (v >> 1)
  {
  }

  /** Above the lowest bit, a step only moves the word down. */
  lemma ShiftPeels(x: bv16, v: bv16)
    ensures PeelsAt(Crc16Register(), x, v)
  {
    LowBitOfXor(x, v);
    if (x ^ v) & 1 != 0 {
      PeelOdd(x, v);
    } else {
      PeelEven(x, v);
    }
  }

  lemma BitsRebuildWord(v: bv16)
    ensures (v & 1) | ((v >> 1) << 1) == v
  {
  }

  lemma TopBitIsLast(v: bv16)
    requires v >> 1 >> 1 >> 1 >> 1 >> 1 >> 1 >> 1 >> 1 >> 1 >> 1 >> 1 >> 1 >> 1 >> 1 >> 1 == 0
    ensures v & 0x8000 == 0
  {
  }

  lemma ByteHasEightBits(b: bv8)
    ensures (b as bv16) >> 1 >> 1 >> 1 >> 1 >> 1 >> 1 >> 1 >> 1 == 0
  {
  }

  lemma UnrollFive<W>(f: W -> W, n: nat, x: W)
    ensures Iterate(f, n + 5, x) == Iterate(f, n, f(f(f(f(f(x))))))
  {
    assert Iterate(f, n + 5, x) == Iterate(f, n + 4, f(x)) == Iterate(f, n + 3, f(f(x)));
    assert Iterate(f, n + 3, f(f(x))) == Iterate(f, n + 2, f(f(f(x)))) == Iterate(f, n + 1, f(f(f(f(x)))));
  }

  lemma BytesFit(b: bv8)
    ensures Iterate(UpperBits, BYTE_BITS, b as bv16) == 0
  {
    var v := b as bv16;
    ByteHasEightBits(b);
    UnrollFive(UpperBits, 3, v);
    var w := v >> 1 >> 1 >> 1 >> 1 >> 1;
    assert Iterate(UpperBits, 3, w) == Iterate(UpperBits, 2, w >> 1) == Iterate(UpperBits, 1, w >> 1 >> 1);
  }

  lemma TopBitClear(v: bv16)
    requires Iterate(UpperBits, WORD_BITS - 1, v) == 0
    ensures v & 0x8000 == 0
  {
    UnrollFive(UpperBits, 10, v);
    var w := v >> 1 >> 1 >> 1 >> 1 >> 1;
    UnrollFive(UpperBits, 5, w);
    var u := w >> 1 >> 1 >> 1 >> 1 >> 1;
    UnrollFive(UpperBits, 0, u);
    TopBitIsLast(v);
  }

  lemma QuietShift(u: bv16)
    ensures DropsClearBit(Crc16Register(), WORD_BITS, u)
  {
    if Iterate(UpperBits, WORD_BITS - 1, ShiftBit(u)) == 0 {
      TopBitClear(ShiftBit(u));
      if u & 1 != 0 {
        OddShiftSetsTop(u);
        assert false;
      }
    }
  }

  lemma BitEntersLow(s: bv16, b: bv16)
    requires b & 1 == b
    ensures (s ^ b) >> 1 == s >> 1
  {
  }

  lemma BitEntersLowValue(s: bv16, b: bv16)
    requires b & 1 == b && (s ^ b) & 1 == 0
    ensures s & 1 == b
  {
  }

  lemma BitMeetsLow(s: bv16, b: bv16)
    ensures MeetsLowBit(Crc16Register(), s, b)
  {
    if b & 1 == b {
      BitEntersLow(s, b);
      if (s ^ b) & 1 == 0 {
        BitEntersLowValue(s, b);
      }
    }
  }

  lemma Crc16Linear()
    ensures Linear(Crc16Register())
  {
    forall x, y ensures LinearAt(Crc16Register(), x, y) {
      ShiftBitLinear(x, y);
      LinearWith(x, y, x ^ y, ShiftBit(x), ShiftBit(y), ShiftBit(x ^ y));
    }
  }

  lemma XorIsAssociative(x: bv16, y: bv16, z: bv16)
    ensures (x ^ y) ^ z == x ^ (y ^ z)
  {
  }

  lemma AssociatesWith(x: bv16, y: bv16, z: bv16, xy: bv16, yz: bv16)
    requires xy == Xor(x, y) && yz == Xor(y, z) && Xor(xy, z) == Xor(x, yz)
    ensures AssociatesAt(Crc16Register(), x, y, z)
  {
  }

  lemma XorAssociates(x: bv16, y: bv16, z: bv16)
    ensures AssociatesAt(Crc16Register(), x, y, z)
  {
    XorIsAssociative(x, y, z);
    AssociatesWith(x, y, z, x ^ y, y ^ z);
  }

  lemma XorCommutes(x: bv16, y: bv16)
    ensures CommutesAt(Crc16Register(), x, y)
  {
  }

  lemma Crc16Commutative()
    ensures Commutative(Crc16Register())
  {
    var r := Crc16Register();
    forall x, y, z ensures AssociatesAt(r, x, y, z) {
      XorAssociates(x, y, z);
    }
    forall x, y ensures CommutesAt(r, x, y) {
      XorCommutes(x, y);
    }
  }

  lemma Crc16Invertible()
    ensures Invertible(Crc16Register()) && Cancels(Crc16Register())
  {
    var r := Crc16Register();
    forall x ensures r.back(r.step(x)) == x {
      UnshiftUndoesShift(x);
    }
    forall x ensures r.xor(x, r.zero) == x {
      XorWithZero(x);
    }
    forall x, y ensures r.xor(x, y) == r.zero <==> x == y {
      XorIsZero(x, y);
    }
  }

  lemma Crc16Peels()
    ensures Peels(Crc16Register())
  {
    var r := Crc16Register();
    forall x, v ensures PeelsAt(r, x, v) {
      ShiftPeels(x, v);
    }
    forall v, w ensures r.low(v) == r.low(w) && r.rest(v) == r.rest(w) ==> v == w {
      BitsRebuildWord(v);
      BitsRebuildWord(w);
    }
  }

  lemma Crc16Width()
    ensures Width(Crc16Register(), WORD_BITS)
  {
    var r := Crc16Register();
    forall u ensures DropsClearBit(r, WORD_BITS, u) {
      QuietShift(u);
    }
    forall s, b ensures MeetsLowBit(r, s, b) {
      BitMeetsLow(s, b);
    }
  }

  // ---- Frames as bit streams ----

  function Words(data: seq<bv8>): (words: seq<bv16>)
    ensures |words| == |data|
    ensures forall i | 0 <= i < |data| :: words[i] == data[i] as bv16
  {
    if data == [] then [] else [data[0] as bv16] + Words(data[1..])
  }

  /** The frame on the wire: eight bits a byte, least significant first. */
  function FrameBits(data: seq<bv8>): (bits: seq<bv16>)
    ensures |bits| == BYTE_BITS * |data|
  {
    AllBits(Crc16Register(), Words(data), BYTE_BITS)
  }

  lemma AbsorbShifts(crc: bv16, b: bv8, n: nat)
    requires n == BYTE_BITS
    ensures Absorb(crc, b) == Iterate(ShiftBit, n, Xor(crc, b as bv16))
  {
  }

  lemma EnterStep<W>(r: Register<W>, s: W, words: seq<W>, n: nat)
    requires words != []
    ensures Enter(r, s, words, n) == Enter(r, Iterate(r.step, n, r.xor(s, words[0])), words[1..], n)
  {
  }

  lemma {:induction false} CrcEntersWords(crc: bv16, data: seq<bv8>, n: nat)
    requires n == BYTE_BITS
    ensures CrcFrom(crc, data) == Enter(Crc16Register(), crc, Words(data), n)
    decreases |data|
  {
    if data != [] {
      CrcEntersWords(Absorb(crc, data[0]), data[1..], n);
      EnterStep(Crc16Register(), crc, Words(data), n);
      AbsorbShifts(crc, data[0], n);
    }
  }

  /** The byte-wise loop computes the bit-serial shift register over the frame's bits. */
  lemma CrcIsBitSerial(crc: bv16, data: seq<bv8>)
    ensures CrcFrom(crc, data) == Feed(Crc16Register(), crc, FrameBits(data))
  {
    CrcEntersWords(crc, data, BYTE_BITS);
    forall w | w in Words(data) ensures Iterate(UpperBits, BYTE_BITS, w) == 0 {
      var i :| 0 <= i < |data| && w == data[i] as bv16;
      BytesFit(data[i]);
    }
    Crc16Peels();
    Crc16Invertible();
    EnterIsBitSerial(Crc16Register(), crc, Words(data), BYTE_BITS);
  }

  lemma LowBitIsBit(v: bv16)
    ensures IsBit(Crc16Register(), LowBit(v))
  {
  }

  lemma XorOfBitsIsBit(a: bv16, b: bv16)
    requires IsBit(Crc16Register(), a) && IsBit(Crc16Register(), b)
    ensures IsBit(Crc16Register(), Xor(a, b))
  {
  }

  lemma {:induction false} BitsAreBits(v: bv16, n: nat)
    ensures forall i | 0 <= i < n :: IsBit(Crc16Register(), Bits(Crc16Register(), v, n)[i])
    decreases n
  {
    if n > 0 {
      LowBitIsBit(v);
      BitsAreBits(v >> 1, n - 1);
    }
  }

  lemma {:induction false} AllBitsAreBits(words: seq<bv16>, n: nat)
    ensures forall i | 0 <= i < n * |words| :: IsBit(Crc16Register(), AllBits(Crc16Register(), words, n)[i])
    decreases |words|
  {
    if words != [] {
      BitsAreBits(words[0], n);
      AllBitsAreBits(words[1..], n);
    }
  }

  lemma {:induction false} AllBitsInjective(v: seq<bv16>, w: seq<bv16>, n: nat)
    requires |v| == |w|
    requires forall x | x in v || x in w :: Iterate(UpperBits, n, x) == 0
    requires AllBits(Crc16Register(), v, n) == AllBits(Crc16Register(), w, n)
    ensures v == w
    decreases |v|
  {
    if v != [] {
      var r := Crc16Register();
      assert Bits(r, v[0], n) == AllBits(r, v, n)[..n] == AllBits(r, w, n)[..n] == Bits(r, w[0], n);
      assert AllBits(r, v[1..], n) == AllBits(r, v, n)[n..] == AllBits(r, w, n)[n..] == AllBits(r, w[1..], n);
      Crc16Peels();
      BitsDetermineWord(r, v[0], w[0], n);
      AllBitsInjective(v[1..], w[1..], n);
      assert v == [v[0]] + v[1..] && w == [w[0]] + w[1..];
    }
  }

  lemma WordsFit(data: seq<bv8>)
    ensures forall w | w in Words(data) :: Iterate(UpperBits, BYTE_BITS, w) == 0
  {
    forall w | w in Words(data) ensures Iterate(UpperBits, BYTE_BITS, w) == 0 {
      var i :| 0 <= i < |data| && w == Words(data)[i];
      BytesFit(data[i]);
    }
  }

  lemma WidenInjective(a: bv8, b: bv8)
    requires a as bv16 == b as bv16
    ensures a == b
  {
  }

  lemma FrameBitsInjective(a: seq<bv8>, b: seq<bv8>)
    requires |a| == |b| && FrameBits(a) == FrameBits(b)
    ensures a == b
  {
    WordsFit(a);
    WordsFit(b);
    AllBitsInjective(Words(a), Words(b), BYTE_BITS);
    forall i | 0 <= i < |a| ensures a[i] == b[i] {
      WidenInjective(a[i], b[i]);
    }
  }

  // ---- Error detection ----

  /** The frames agree on every wire bit outside the sixteen that start at `from`. */
  ghost predicate DifferWithinBurst(a: seq<bv8>, b: seq<bv8>, from: nat) {
    && |a| == |b|
    && (forall i | 0 <= i < |FrameBits(a)| && !(from <= i < from + WORD_BITS) :: FrameBits(a)[i] == FrameBits(b)[i])
  }

  lemma Crc16BitsClosed()
    ensures BitsClosed(Crc16Register())
  {
    forall a, b | IsBit(Crc16Register(), a) && IsBit(Crc16Register(), b)
      ensures IsBit(Crc16Register(), Crc16Register().xor(a, b))
    {
      XorOfBitsIsBit(a, b);
    }
  }

  lemma EqualCrcMeansNoBurst(a: seq<bv8>, b: seq<bv8>, from: nat)
    requires DifferWithinBurst(a, b, from) && CrcOf(a) == CrcOf(b)
    ensures a == b
  {
    CrcIsBitSerial(CRC_INIT, a);
    CrcIsBitSerial(CRC_INIT, b);
    Crc16Linear();
    Crc16Commutative();
    Crc16Invertible();
    Crc16Width();
    Crc16BitsClosed();
    AllBitsAreBits(Words(a), BYTE_BITS);
    AllBitsAreBits(Words(b), BYTE_BITS);
    BurstDetected(Crc16Register(), WORD_BITS, CRC_INIT, FrameBits(a), FrameBits(b), from);
    FrameBitsInjective(a, b);
  }

  // ---- The trailing CRC makes the residue zero ----

  lemma ShiftOfDouble(w: bv16)
    requires w & 0x8000 == 0
    ensures ShiftBit(w << 1) == w
  {
  }

  lemma Undouble(w: bv16, n: nat)
    requires w & 0x8000 == 0
    ensures Iterate(ShiftBit, n + 1, w << 1) == Iterate(ShiftBit, n, w)
  {
    ShiftOfDouble(w);
  }

  lemma EightDoublings(h: bv8)
    ensures (h as bv16) << 8 == (h as bv16) << 1 << 1 << 1 << 1 << 1 << 1 << 1 << 1
  {
  }

  /** Eight shifts bring the high byte down to the low byte. */
  lemma HighByteComesDown(h: bv8)
    ensures Iterate(ShiftBit, BYTE_BITS, (h as bv16) << 8) == h as bv16
  {
    var v := h as bv16;
    EightDoublings(h);
    var w1 := v << 1;
    var w2 := w1 << 1;
    var w3 := w2 << 1;
    var w4 := w3 << 1;
    var w5 := w4 << 1;
    var w6 := w5 << 1;
    var w7 := w6 << 1;
    assert v & 0x8000 == 0 && w1 & 0x8000 == 0 && w2 & 0x8000 == 0 && w3 & 0x8000 == 0;
    assert w4 & 0x8000 == 0 && w5 & 0x8000 == 0 && w6 & 0x8000 == 0;
    assert w7 & 0x8000 == 0;
    Undouble(w7, 7);
    Undouble(w6, 6);
    Undouble(w5, 5);
    Undouble(w4, 4);
    Undouble(w3, 3);
    Undouble(w2, 2);
    Undouble(w1, 1);
    Undouble(v, 0);
  }

  lemma LittleEndianXor(lo: bv8, hi: bv8)
    ensures FromLe(lo, hi) == (lo as bv16) ^ ((hi as bv16) << 8)
  {
  }

  lemma EnterTwoBytes(crc: bv16, l: bv16, h: bv16, raised: bv16, w: bv16, n: nat)
    requires Iterate(ShiftBit, n, raised) == h && w == Xor(l, raised)
    ensures Iterate(ShiftBit, n, Xor(Iterate(ShiftBit, n, Xor(crc, l)), h)) == Iterate(ShiftBit, n + n, Xor(crc, w))
  {
    Crc16Linear();
    Crc16Commutative();
    EnterTwo(Crc16Register(), crc, l, h, raised, n);
  }

  lemma AbsorbAs(crc: bv16, b: bv8)
    ensures Absorb(crc, b) == Iterate(ShiftBit, BYTE_BITS, Xor(crc, b as bv16))
  {
  }

  /** Two bytes absorbed in turn are one little-endian word absorbed at once. */
  lemma AbsorbTwo(crc: bv16, lo: bv8, hi: bv8)
    ensures Absorb(Absorb(crc, lo), hi)
         == Iterate(ShiftBit, BYTE_BITS + BYTE_BITS, Xor(crc, FromLe(lo, hi)))
  {
    HighByteComesDown(hi);
    LittleEndianXor(lo, hi);
    EnterTwoBytes(crc, lo as bv16, hi as bv16, (hi as bv16) << 8, FromLe(lo, hi), BYTE_BITS);
    AbsorbAs(crc, lo);
    AbsorbAs(Absorb(crc, lo), hi);
  }

  lemma {:induction false} CrcFromAppend(crc: bv16, a: seq<bv8>, b: seq<bv8>)
    ensures CrcFrom(crc, a + b) == CrcFrom(CrcFrom(crc, a), b)
    decreases |a|
  {
    if a == [] {
      assert a + b == b;
    } else {
      assert (a + b)[0] == a[0] && (a + b)[1..] == a[1..] + b;
      CrcFromAppend(Absorb(crc, a[0]), a[1..], b);
    }
  }

  lemma CrcFromTwo(crc: bv16, lo: bv8, hi: bv8)
    ensures CrcFrom(crc, [lo, hi]) == Absorb(Absorb(crc, lo), hi)
  {
    assert [lo, hi][1..] == [hi] && [hi][1..] == [];
    assert CrcFrom(Absorb(crc, lo), [hi]) == CrcFrom(Absorb(Absorb(crc, lo), hi), []);
  }

  /** The register ends at zero exactly when the last two bytes are the CRC of what precedes them. */
  lemma ResidueZero(body: seq<bv8>, lo: bv8, hi: bv8)
    ensures CrcOf(body + [lo, hi]) == 0 <==> FromLe(lo, hi) == CrcOf(body)
  {
    var r := Crc16Register();
    var crc, w := CrcOf(body), FromLe(lo, hi);
    CrcFromAppend(CRC_INIT, body, [lo, hi]);
    CrcFromTwo(crc, lo, hi);
    AbsorbTwo(crc, lo, hi);
    Crc16Invertible();
    IterateZero(r, BYTE_BITS + BYTE_BITS);
    if CrcOf(body + [lo, hi]) == 0 {
      IterateInjective(r, BYTE_BITS + BYTE_BITS, Xor(crc, w), 0);
    }
    XorIsZero(crc, w);
  }

  /** Address, function and length of the frame are those of a register response. */
  predicate WellFormed(raw: seq<bv8>) {
    && |raw| >= 5
    && raw[0] == BMS_ADDRESS
    && raw[1] == FUNC_READ_HOLDING
    && |raw| == 3 + raw[2] as int + 2
  }

  /** A frame is accepted if and only if it is well-formed and its whole CRC, trailer included, is 0. */
  lemma AcceptedIffResidueZero(raw: seq<bv8>)
    ensures ParseBytes(raw).Ok? <==> WellFormed(raw) && CrcOf(raw) == 0
  {
    if WellFormed(raw) {
      var crcPos := |raw| - 2;
      assert raw == raw[..crcPos] + [raw[crcPos], raw[crcPos + 1]];
      ResidueZero(raw[..crcPos], raw[crcPos], raw[crcPos + 1]);
    }
  }

  /** No frame differing from an accepted one only inside a burst of sixteen bits is accepted. */
  lemma BurstRejected(good: seq<bv8>, bad: seq<bv8>, from: nat)
    requires ParseBytes(good).Ok? && DifferWithinBurst(good, bad, from) && good != bad
    ensures ParseBytes(bad).Err?
  {
    AcceptedIffResidueZero(good);
    AcceptedIffResidueZero(bad);
    if ParseBytes(bad).Ok? {
      EqualCrcMeansNoBurst(good, bad, from);
    }
  }

  lemma BitInByte(i: nat, count: nat)
    requires i < BYTE_BITS * count
    ensures i / BYTE_BITS < count && BYTE_BITS * (i / BYTE_BITS) + i % BYTE_BITS == i
  {
  }

  lemma FrameBitIsLocal(a: seq<bv8>, b: seq<bv8>, i: nat)
    requires |a| == |b| && i < BYTE_BITS * |a| && a[i / BYTE_BITS] == b[i / BYTE_BITS]
    ensures FrameBits(a)[i] == FrameBits(b)[i]
  {
    BitInByte(i, |a|);
    var k, j := i / BYTE_BITS, i % BYTE_BITS;
    AllBitsAt(Crc16Register(), Words(a), BYTE_BITS, k, j, i);
    AllBitsAt(Crc16Register(), Words(b), BYTE_BITS, k, j, i);
  }

  lemma AdjacentBytesAreABurst(a: seq<bv8>, b: seq<bv8>, at: nat)
    requires |a| == |b|
    requires forall i | 0 <= i < |a| && i != at && i != at + 1 :: a[i] == b[i]
    ensures DifferWithinBurst(a, b, BYTE_BITS * at)
  {
    var from := BYTE_BITS * at;
    forall i | 0 <= i < |FrameBits(a)| && !(from <= i < from + WORD_BITS)
      ensures FrameBits(a)[i] == FrameBits(b)[i]
    {
      assert i / BYTE_BITS != at && i / BYTE_BITS != at + 1;
      FrameBitIsLocal(a, b, i);
    }
  }

  /** In particular two adjacent bytes can be damaged in any way and the frame is rejected. */
  lemma TwoAdjacentBytesRejected(good: seq<bv8>, bad: seq<bv8>, at: nat)
    requires ParseBytes(good).Ok? && |good| == |bad| && good != bad
    requires forall i | 0 <= i < |good| && i != at && i != at + 1 :: good[i] == bad[i]
    ensures ParseBytes(bad).Err?
  {
    AdjacentBytesAreABurst(good, bad, at);
    BurstRejected(good, bad, BYTE_BITS * at);
  }

  lemma CrcOfSix(a: bv8, b: bv8, c: bv8, d: bv8, e: bv8, f: bv8)
    ensures CrcOf([a, b, c, d, e, f]) == Absorb(Absorb(Absorb(Absorb(Absorb(Absorb(CRC_INIT, a), b), c), d), e), f)
  {
    var data := [a, b, c, d, e, f];
    assert data[0..] == data && data[6..] == [];
    CrcFromStep(CRC_INIT, data, 0);
    var c1 := Absorb(CRC_INIT, a);
    CrcFromStep(c1, data, 1);
    var c2 := Absorb(c1, b);
    CrcFromStep(c2, data, 2);
    var c3 := Absorb(c2, c);
    CrcFromStep(c3, data, 3);
    var c4 := Absorb(c3, d);
    CrcFromStep(c4, data, 4);
    CrcFromStep(Absorb(c4, e), data, 5);
  }

  /** The realtime and config requests quoted in the protocol notes carry these CRC values. */
  lemma DocumentedCrcs()
    ensures CrcOf([0xD2, 0x03, 0x00, 0x00, 0x00, 0x7E]) == 0x49D6
    ensures CrcOf([0xD2, 0x03, 0x00, 0x80, 0x00, 0x70]) == 0x6556
  {
    CrcOfSix(0xD2, 0x03, 0x00, 0x00, 0x00, 0x7E);
    assert Absorb(0xFFFF, 0xD2) == 0x1D3F;
    assert Absorb(0x1D3F, 0x03) == 0x111D;
    assert Absorb(0x111D, 0x00) == 0x09D1;
    assert Absorb(0x09D1, 0x00) == 0x5CC9;
    assert Absorb(0x5CC9, 0x00) == 0x569C;
    assert Absorb(0x569C, 0x7E) == 0x49D6;
    CrcOfSix(0xD2, 0x03, 0x00, 0x80, 0x00, 0x70);
    assert Absorb(0x09D1, 0x80) == 0xFCC8;
    assert Absorb(0xFCC8, 0x00) == 0x96FD;
    assert Absorb(0x96FD, 0x70) == 0x6556;
  }

  // ---- Round trips ----

  lemma BytesRebuildRegister(v: bv16)
    ensures FromLe(LowByte(v), HighByte(v)) == v
  {
  }

  lemma RegisterRebuildsLow(lo: bv8, hi: bv8)
    ensures LowByte(FromLe(lo, hi)) == lo
  {
  }

  lemma RegisterRebuildsHigh(lo: bv8, hi: bv8)
    ensures HighByte(FromLe(lo, hi)) == hi
  {
  }

  lemma {:induction false} RegistersOfPayload(regs: seq<bv16>)
    ensures ToRegisters(PayloadOf(regs)) == regs
  {
    if regs != [] {
      var p := PayloadOf(regs);
      assert p[2..] == PayloadOf(regs[1..]);
      BytesRebuildRegister(regs[0]);
      RegistersOfPayload(regs[1..]);
    }
  }

  lemma {:induction false} PayloadOfRegisters(payload: seq<bv8>)
    requires |payload| % 2 == 0
    ensures PayloadOf(ToRegisters(payload)) == payload
  {
    if payload != [] {
      RegisterRebuildsHigh(payload[1], payload[0]);
      RegisterRebuildsLow(payload[1], payload[0]);
      PayloadOfRegisters(payload[2..]);
      assert payload == [payload[0], payload[1]] + payload[2..];
    }
  }

  lemma ByteAtMost(n: int)
    requires 0 <= n < 256
    ensures (n as bv8) as int <= n
  {
  }

  lemma ByteAtLeast(n: int)
    requires 0 <= n < 256
    ensures n <= (n as bv8) as int
  {
  }

  lemma ByteOfCount(n: int)
    requires 0 <= n < 256
    ensures (n as bv8) as int == n
  {
    ByteAtMost(n);
    ByteAtLeast(n);
  }

  /** The bytes of a frame: header, count cut to eight bits, payload, CRC of all before it. */
  predicate Framed(regs: seq<bv16>, raw: seq<bv8>, body: seq<bv8>) {
    && |raw| == 5 + 2 * |regs|
    && raw[0] == BMS_ADDRESS && raw[1] == FUNC_READ_HOLDING && raw[2] as int == 2 * |regs| % 256
    && raw[..|raw| - 2] == body && raw[3..|raw| - 2] == PayloadOf(regs)
    && raw[|raw| - 2] == LowByte(CrcOf(body)) && raw[|raw| - 1] == HighByte(CrcOf(body))
  }

  lemma FramedWith(regs: seq<bv16>, count: bv8, body: seq<bv8>, raw: seq<bv8>)
    requires count as int == 2 * |regs| % 256
    requires body == [BMS_ADDRESS, FUNC_READ_HOLDING, count] + PayloadOf(regs) && raw == WithCrc(body)
    ensures Framed(regs, raw, body)
  {
    assert raw == body + [LowByte(CrcOf(body)), HighByte(CrcOf(body))];
  }

  /** What the encoder writes. */
  lemma BuiltFrame(regs: seq<bv16>, body: seq<bv8>)
    requires body == [BMS_ADDRESS, FUNC_READ_HOLDING, (2 * |regs| % 256) as bv8] + PayloadOf(regs)
    ensures Framed(regs, BuildBytes(regs), body)
  {
    var count := (2 * |regs| % 256) as bv8;
    ByteOfCount(2 * |regs| % 256);
    FramedWith(regs, count, body, BuildBytes(regs));
  }

  lemma ParseAccepts(raw: seq<bv8>, crc: bv16)
    requires |raw| >= 5 && raw[0] == BMS_ADDRESS && raw[1] == FUNC_READ_HOLDING && raw[2] as int == |raw| - 5
    requires FromLe(raw[|raw| - 2], raw[|raw| - 1]) == crc && CrcOf(raw[..|raw| - 2]) == crc
    ensures ParseBytes(raw) == Ok(ToRegisters(raw[3..|raw| - 2]))
  {
  }

  lemma ParseRefuses(raw: seq<bv8>)
    requires |raw| >= 5 && raw[2] as int != |raw| - 5
    ensures ParseBytes(raw).Err?
  {
  }

  lemma FitsAndParses(regs: seq<bv16>, raw: seq<bv8>, body: seq<bv8>, crc: bv16)
    requires Framed(regs, raw, body) && |regs| <= 127 && crc == CrcOf(body)
    ensures ParseBytes(raw) == Ok(regs)
  {
    BytesRebuildRegister(crc);
    ParseAccepts(raw, crc);
    RegistersOfPayload(regs);
  }

  lemma CutAndRefused(regs: seq<bv16>, raw: seq<bv8>, body: seq<bv8>)
    requires Framed(regs, raw, body) && |regs| > 127
    ensures ParseBytes(raw).Err?
  {
    ParseRefuses(raw);
  }

  /** Parsing inverts encoding for exactly the register lists whose byte count fits in one byte. */
  lemma BytesRoundTrip(regs: seq<bv16>)
    ensures ParseBytes(BuildBytes(regs)) == Ok(regs) <==> |regs| <= 127
  {
    var body := [BMS_ADDRESS, FUNC_READ_HOLDING, (2 * |regs| % 256) as bv8] + PayloadOf(regs);
    BuiltFrame(regs, body);
    if |regs| <= 127 {
      FitsAndParses(regs, BuildBytes(regs), body, CrcOf(body));
    } else {
      CutAndRefused(regs, BuildBytes(regs), body);
    }
  }

  lemma CountOfByte(b: bv8)
    ensures 0 <= b as int < 256 && (b as int) as bv8 == b
  {
  }

  lemma EvenByteCount(count: nat, regs: nat)
    requires count < 256 && count % 2 == 0 && regs == count / 2
    ensures 2 * regs % 256 == count
  {
  }

  lemma TrailerIsCrc(lo: bv8, hi: bv8, crc: bv16)
    requires FromLe(lo, hi) == crc
    ensures LowByte(crc) == lo && HighByte(crc) == hi
  {
    RegisterRebuildsLow(lo, hi);
    RegisterRebuildsHigh(lo, hi);
  }

  lemma AcceptedFrameParts(raw: seq<bv8>)
    requires ParseBytes(raw).Ok?
    ensures |raw| == 5 + raw[2] as int
    ensures ParseBytes(raw).value == ToRegisters(raw[3..|raw| - 2])
    ensures raw == WithCrc([BMS_ADDRESS, FUNC_READ_HOLDING, raw[2]] + raw[3..|raw| - 2])
  {
    var crcPos := |raw| - 2;
    var body := [BMS_ADDRESS, FUNC_READ_HOLDING, raw[2]] + raw[3..crcPos];
    assert raw[..crcPos] == body;
    TrailerIsCrc(raw[crcPos], raw[crcPos + 1], CrcOf(body));
    assert raw == body + [raw[crcPos], raw[crcPos + 1]];
  }

  /** Re-encoding the registers of an accepted frame with an even byte count restores the frame. */
  lemma ReencodeRestoresFrame(raw: seq<bv8>)
    requires ParseBytes(raw).Ok? && raw[2] as int % 2 == 0
    ensures BuildBytes(ParseBytes(raw).value) == raw
  {
    AcceptedFrameParts(raw);
    var payload := raw[3..|raw| - 2];
    PayloadOfRegisters(payload);
    CountOfByte(raw[2]);
    EvenByteCount(raw[2] as int, |ToRegisters(payload)|);
  }

  lemma DigitsRebuildByte(b: bv8, c: char, d: char)
    requires HexValue(c) == b as int / 16 && HexValue(d) == b as int % 16
    ensures HexByte(c, d) == b
  {
    assert b as int / 16 * 16 + b as int % 16 == b as int;
    CountOfByte(b);
  }

  lemma DecodedAt(s: string, i: nat)
    requires IsHex(s) && i < |s| / 2
    ensures HexDecode(s).value[i] == HexByte(s[2 * i], s[2 * i + 1])
  {
  }

  lemma HexGrows(c: char, d: char, rest: string)
    requires IsHex(rest) && HexValue(c) >= 0 && HexValue(d) >= 0
    ensures IsHex([c, d] + rest)
  {
    var s := [c, d] + rest;
    forall i | 0 <= i < |s| ensures HexValue(s[i]) >= 0 {
      if i >= 2 {
        assert s[i] == rest[i - 2];
      }
    }
  }

  lemma HexDecodeStep(b: bv8, c: char, d: char, rest: string)
    requires IsHex(rest) && HexValue(c) == b as int / 16 && HexValue(d) == b as int % 16
    requires IsHex([c, d] + rest)
    ensures HexDecode([c, d] + rest) == Ok([b] + HexDecode(rest).value)
  {
    var s := [c, d] + rest;
    var back, tail := HexDecode(s).value, HexDecode(rest).value;
    DigitsRebuildByte(b, c, d);
    DecodedAt(s, 0);
    forall i | 0 < i < |back| ensures back[i] == tail[i - 1] {
      DecodedAt(s, i);
      DecodedAt(rest, i - 1);
      assert s[2 * i] == rest[2 * (i - 1)] && s[2 * i + 1] == rest[2 * (i - 1) + 1];
    }
    assert back == [b] + tail;
  }

  lemma {:induction false} HexRoundTrip(bytes: seq<bv8>)
    ensures IsHex(HexEncode(bytes))
    ensures HexDecode(HexEncode(bytes)) == Ok(bytes)
  {
    if bytes == [] {
      assert HexDecode("").value == bytes;
    } else {
      var b := bytes[0] as int;
      HexRoundTrip(bytes[1..]);
      HexGrows(HexDigit(b / 16), HexDigit(b % 16), HexEncode(bytes[1..]));
      HexDecodeStep(bytes[0], HexDigit(b / 16), HexDigit(b % 16), HexEncode(bytes[1..]));
      assert bytes == [bytes[0]] + bytes[1..];
    }
  }

  /** The hex frame built from a register list parses back to it exactly when the list fits. */
  lemma FrameRoundTrip(regs: seq<bv16>)
    ensures ParseResponse(BuildFrame(regs)) == Ok(regs) <==> |regs| <= 127
  {
    HexRoundTrip(BuildBytes(regs));
    BytesRoundTrip(regs);
  }
}
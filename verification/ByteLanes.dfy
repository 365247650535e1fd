/** Byte lanes of 32-bit little-endian words. */
module ByteLanes {
  import opened Words

  const LANES := 4
  const BITS_PER_BYTE := 8
  const BYTE_MASK: U32 := 0xFF

  lemma Pow2Lanes()
    ensures Pow2(0) == 1 && Pow2(8) == 256 && Pow2(16) == 0x1_0000 && Pow2(24) == 0x100_0000 && Pow2(32) == TWO32
  {
    Pow2Values();
    assert Pow2(8) == 256;
    assert Pow2(16) == 0x1_0000;
    assert Pow2(24) == 0x100_0000;
  }

  /** `byte << (lane * 8)`. */
  function Place(byte: Byte, lane: nat): (word: U32)
    requires lane < LANES
    ensures forall i: nat :: Test(word, i) <==> i >= lane * BITS_PER_BYTE && Test(byte, i - lane * BITS_PER_BYTE)
  {
    Pow2Lanes();
    var n := lane * BITS_PER_BYTE;
    assert forall i: nat :: Test(ShiftLeft(byte, n), i) <==> i >= n && Test(byte, i - n) by {
      forall i: nat
        ensures Test(ShiftLeft(byte, n), i) <==> i >= n && Test(byte, i - n)
      {
        ShiftLeftBit(byte, n, i);
      }
    }
    ShiftLeft(byte, n)
  }

  lemma ByteBits(byte: Byte, i: nat)
    ensures i >= 8 ==> !Test(byte, i)
  {
    if i >= 8 {
      Pow2Lanes();
      HighBitsClear(byte, 8, i);
    }
  }

  lemma {:induction false} OnesBits(n: nat, i: nat)
    ensures Pow2(n) >= 1 && (Test(Pow2(n) - 1, i) <==> i < n)
    decreases n
  {
    if n == 0 {
      ZeroHasNoBits(i);
    } else {
      OnesBits(n - 1, if i == 0 then 0 else i - 1);
      assert (Pow2(n) - 1) / 2 == Pow2(n - 1) - 1 && (Pow2(n) - 1) % 2 == 1;
    }
  }

  lemma MaskBits(i: nat)
    ensures Test(BYTE_MASK, i) <==> i < 8
  {
    Pow2Lanes();
    OnesBits(8, i);
  }

  lemma AndBound(a: U32, b: U32, limit: nat)
    requires b < limit
    ensures And(a, b) < limit
  {
    AndIsAtMost(a, b);
  }

  lemma {:induction false} AndIsAtMost(a: nat, b: nat)
    ensures AndBits(a, b) <= b
    decreases a
  {
    if a != 0 {
      AndIsAtMost(a / 2, b / 2);
    }
  }

  lemma {:induction false} ShiftRightAtMost(x: nat, n: nat)
    ensures ShiftRight(x, n) <= x
    decreases n
  {
    if n != 0 {
      ShiftRightAtMost(x / 2, n - 1);
    }
  }

  /** `(word >> (lane * 8)) & 0xFF`. */
  function Lane(word: U32, lane: nat): (byte: Byte)
    requires lane < LANES
    ensures forall i: nat :: Test(byte, i) <==> i < 8 && Test(word, i + lane * BITS_PER_BYTE)
  {
    var n := lane * BITS_PER_BYTE;
    ShiftRightAtMost(word, n);
    var shifted: U32 := ShiftRight(word, n);
    AndBound(shifted, BYTE_MASK, 256);
    assert forall i: nat :: Test(And(shifted, BYTE_MASK), i) <==> i < 8 && Test(word, i + n) by {
      forall i: nat
        ensures Test(And(shifted, BYTE_MASK), i) <==> i < 8 && Test(word, i + n)
      {
        ShiftRightBit(word, n, i);
        MaskBits(i);
      }
    }
    And(shifted, BYTE_MASK)
  }

  /** The little-endian word of the first `n` bytes, as `read_word` accumulates it. */
  function WordOf(bytes: seq<Byte>, n: nat): (word: U32)
    requires n <= |bytes| && n <= LANES
    ensures forall i: nat :: Test(word, i) <==>
      i < n * BITS_PER_BYTE && Test(bytes[i / BITS_PER_BYTE], i % BITS_PER_BYTE)
  {
    if n == 0 then
      assert forall i: nat :: !Test(0, i) by { forall i: nat { ZeroHasNoBits(i); } }
      0
    else
      var rest := WordOf(bytes, n - 1);
      var word := Or(rest, Place(bytes[n - 1], n - 1));
      assert forall i: nat :: Test(word, i) <==>
        i < n * BITS_PER_BYTE && Test(bytes[i / BITS_PER_BYTE], i % BITS_PER_BYTE)
      by {
        forall i: nat
          ensures Test(word, i) <==> i < n * BITS_PER_BYTE && Test(bytes[i / BITS_PER_BYTE], i % BITS_PER_BYTE)
        {
          PlacedBit(bytes[n - 1], n - 1, i);
        }
      }
      word
  }

  /** A placed byte occupies exactly the eight bits of its lane. */
  lemma PlacedBit(byte: Byte, lane: nat, i: nat)
    requires lane < LANES
    ensures Test(Place(byte, lane), i) <==> i / BITS_PER_BYTE == lane && Test(byte, i % BITS_PER_BYTE)
  {
    var n := lane * BITS_PER_BYTE;
    if i >= n {
      ByteBits(byte, i - n);
      assert i < n + 8 ==> i - n == i % BITS_PER_BYTE;
    }
  }

  /** `apply_strobe` over the first lanes: `(result & ~mask) | (value & mask)` for each strobed lane. */
  function ApplyLanes(original: U32, value: U32, strobe: U32, lanes: nat): (word: U32)
    requires lanes <= LANES
    ensures forall i: nat :: Test(word, i) <==>
      if i < lanes * BITS_PER_BYTE && Test(strobe, i / BITS_PER_BYTE) then Test(value, i) else Test(original, i)
  {
    if lanes == 0 then original
    else
      var result := ApplyLanes(original, value, strobe, lanes - 1);
      if Test(strobe, lanes - 1) then
        var mask := Place(BYTE_MASK, lanes - 1);
        assert forall i: nat :: Test(mask, i) <==> i / BITS_PER_BYTE == lanes - 1 by {
          forall i: nat
            ensures Test(mask, i) <==> i / BITS_PER_BYTE == lanes - 1
          {
            PlacedBit(BYTE_MASK, lanes - 1, i);
            MaskBits(i % BITS_PER_BYTE);
          }
        }
        Or(AndNot(result, mask), And(value, mask))
      else result
  }

  function ApplyStrobe(original: U32, value: U32, strobe: U32): U32 {
    ApplyLanes(original, value, strobe, LANES)
  }

  /** The bytes of a strobe-masked write: strobed lanes of `data`, other bytes kept. */
  function MaskedBytes(bytes: seq<Byte>, data: U32, strobe: U32): seq<Byte>
    requires |bytes| == LANES
  {
    seq(LANES, lane requires 0 <= lane < LANES => if Test(strobe, lane) then Lane(data, lane) else bytes[lane])
  }

  /** Writing strobed bytes is merging strobed lanes of the word. */
  lemma MaskedWord(bytes: seq<Byte>, data: U32, strobe: U32)
    requires |bytes| == LANES
    ensures WordOf(MaskedBytes(bytes, data, strobe), LANES) == ApplyStrobe(WordOf(bytes, LANES), data, strobe)
  {
    var masked := MaskedBytes(bytes, data, strobe);
    var a, b := WordOf(masked, LANES), ApplyStrobe(WordOf(bytes, LANES), data, strobe);
    forall i: nat | i < 32
      ensures Test(a, i) <==> Test(b, i)
    {
      var lane, bit := i / BITS_PER_BYTE, i % BITS_PER_BYTE;
      assert Test(a, i) <==> Test(masked[lane], bit);
      assert i == bit + lane * BITS_PER_BYTE;
    }
    Pow2Values();
    BitsDetermine(a, b, 32);
  }

  /** With every lane strobed a write stores the whole word, with none it stores nothing: reading back
      gives the data written, or the old word. */
  lemma StrobeExtremes(bytes: seq<Byte>, data: U32, strobe: U32)
    requires |bytes| == LANES
    ensures (forall lane: nat :: lane < LANES ==> Test(strobe, lane)) ==>
      WordOf(MaskedBytes(bytes, data, strobe), LANES) == data
    ensures (forall lane: nat :: lane < LANES ==> !Test(strobe, lane)) ==> MaskedBytes(bytes, data, strobe) == bytes
  {
    MaskedWord(bytes, data, strobe);
    Pow2Values();
    if forall lane: nat :: lane < LANES ==> Test(strobe, lane) {
      var word := ApplyStrobe(WordOf(bytes, LANES), data, strobe);
      forall i: nat | i < 32
        ensures Test(word, i) <==> Test(data, i)
      {
        assert Test(strobe, i / BITS_PER_BYTE);
      }
      BitsDetermine(word, data, 32);
    }
  }
}

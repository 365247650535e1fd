/** The byte order of 16-bit elements in memory: bit by bit, and against the bench's little-endian words. */
module ByteOrder {
  import opened Words
  import opened ByteLanes
  import opened MemoryModel

  lemma HalvesBits(low: Byte, high: Byte, i: nat)
    ensures Test(low + 256 * high, i) <==> if i < 8 then Test(low, i) else i < 16 && Test(high, i - 8)
  {
    Pow2Lanes();
    PartBits(low, high, 8, i);
    if i >= 8 {
      ByteBits(high, i - 8);
    }
  }

  /** The lower byte comes first: bit `i` of a decoded element is bit `i % 8` of byte `i / 8` of its two. */
  lemma DecodeBits(bytes: seq<Byte>, n: nat, k: nat, i: nat)
    requires |bytes| == 2 * n && k < n
    ensures Test(Decode(bytes, n)[k], i) <==> i < 16 && Test(bytes[2 * k + i / 8], i % 8)
  {
    var low: Byte, high: Byte := bytes[2 * k], bytes[2 * k + 1];
    assert Decode(bytes, n)[k] == low + 256 * high;
    HalvesBits(low, high, i);
    WhichHalf(low, high, bytes, k, i);
  }

  lemma WhichHalf(low: Byte, high: Byte, bytes: seq<Byte>, k: nat, i: nat)
    requires 2 * k + 1 < |bytes| && low == bytes[2 * k] && high == bytes[2 * k + 1]
    ensures i < 8 ==> bytes[2 * k + i / 8] == low && i % 8 == i
    ensures 8 <= i < 16 ==> bytes[2 * k + i / 8] == high && i % 8 == i - 8
  {
  }

  /** Bit `i` of byte `k` of encoded elements is bit `i` of the lower half of element `k / 2` at even, and of its
      upper half at odd positions. */
  lemma EncodeBits(elements: seq<U16>, k: nat, i: nat)
    requires k < 2 * |elements|
    ensures Test(Encode(elements)[k], i) <==> i < 8 && Test(elements[k / 2], i + 8 * (k % 2))
  {
    var x := elements[k / 2];
    ByteBits(Encode(elements)[k], i);
    if i < 8 {
      Pow2Lanes();
      PartBits(x % 256, x / 256, 8, i + 8 * (k % 2));
    }
  }

  /** Two encoded elements are one little-endian word of the bus, the first element in its lower half. */
  lemma EncodedWord(x: U16, y: U16)
    ensures WordOf(Encode([x, y]), 4) == x + 0x1_0000 * y
  {
    var bytes := Encode([x, y]);
    var word := WordOf(bytes, 4);
    Pow2Lanes();
    forall i: nat | i < 32
      ensures Test(word, i) <==> Test(x + 0x1_0000 * y, i)
    {
      EncodeBits([x, y], i / 8, i % 8);
      PartBits(x, y, 16, i);
      BitOfWord(i);
    }
    BitsDetermine(word, x + 0x1_0000 * y, 32);
  }

  lemma BitOfWord(i: nat)
    ensures i % 8 + 8 * (i / 8 % 2) == i % 16 && i / 8 / 2 == i / 16
  {
  }

  /** The element at an address: the byte there, and 256 times the next one. */
  function ElementAt(m: Memory, a: nat): U16 {
    m(a) + 256 * m(a + 1)
  }

  /** Decoding reads the elements in the order of their addresses. */
  lemma DecodedElement(m: Memory, a: nat, n: nat, k: nat)
    requires k < n
    ensures Decode(ReadBytes(m, a, 2 * n), n)[k] == ElementAt(m, a + 2 * k)
  {
  }

  /** Encoded elements in memory are the elements at their addresses. */
  lemma EncodedElement(m: Memory, a: nat, elements: seq<U16>, k: nat)
    requires ReadBytes(m, a, 2 * |elements|) == Encode(elements) && k < |elements|
    ensures ElementAt(m, a + 2 * k) == elements[k]
  {
    DecodeEncode(elements);
    DecodedElement(m, a, |elements|, k);
  }
}

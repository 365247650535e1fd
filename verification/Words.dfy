/** Machine words of the SoC: unsigned integers of fixed width and bit tests on them. */
module Words {

  datatype Option<+T> = None | Some(value: T)

  datatype Result<+T, +E> = Success(value: T) | Failure(error: E)

  const TWO16 := 0x1_0000
  const TWO32 := 0x1_0000_0000
  const TWO64 := 0x1_0000_0000_0000_0000

  type Byte = x: int | 0 <= x < 0x100
  type U16 = x: int | 0 <= x < 0x1_0000
  type U32 = x: int | 0 <= x < 0x1_0000_0000

  /** The value of an unsigned 32-bit expression: C++ reduces it modulo 2^32. */
  function Wrap32(x: int): U32 {
    x % TWO32
  }

  function Pow2(n: nat): nat
    decreases n
  {
    if n == 0 then 1 else 2 * Pow2(n - 1)
  }

  lemma Pow2Values()
    ensures Pow2(31) == 0x8000_0000 && Pow2(32) == TWO32
  {
    assert Pow2(6) == 64;
    assert Pow2(12) == 4096;
    assert Pow2(18) == 0x4_0000;
    assert Pow2(24) == 0x100_0000;
    assert Pow2(30) == 0x4000_0000;
  }

  /** Whether bit `index` of `word` is set. */
  predicate Test(word: nat, index: nat)
    decreases index
  {
    if index == 0 then word % 2 == 1 else Test(word / 2, index - 1)
  }

  lemma {:induction false} ZeroHasNoBits(index: nat)
    ensures !Test(0, index)
    decreases index
  {
    if index != 0 {
      ZeroHasNoBits(index - 1);
    }
  }

  lemma {:induction false} Pow2Bit(n: nat, index: nat)
    ensures Test(Pow2(n), index) <==> index == n
    decreases n
  {
    if n == 0 {
      if index != 0 {
        ZeroHasNoBits(index - 1);
      }
    } else if index != 0 {
      Pow2Bit(n - 1, index - 1);
    }
  }

  lemma {:induction false} Pow2Grows(m: nat, n: nat)
    requires m <= n
    ensures Pow2(m) <= Pow2(n)
    decreases n
  {
    if m < n {
      Pow2Grows(m, n - 1);
    }
  }

  /** `register_bit`: the word with exactly bit `index` set. */
  function RegisterBit(index: nat): (word: U32)
    requires index < 32
    ensures forall i: nat :: Test(word, i) <==> i == index
  {
    Pow2Grows(index, 31);
    Pow2Values();
    assert forall i: nat :: Test(Pow2(index), i) <==> i == index by {
      forall i: nat {
        Pow2Bit(index, i);
      }
    }
    Pow2(index)
  }

  function OrBits(a: nat, b: nat): (r: nat)
    ensures forall i: nat :: Test(r, i) <==> Test(a, i) || Test(b, i)
    decreases a + b
  {
    if a == 0 then
      assert forall i: nat :: !Test(0, i) by { forall i: nat { ZeroHasNoBits(i); } }
      b
    else if b == 0 then
      assert forall i: nat :: !Test(0, i) by { forall i: nat { ZeroHasNoBits(i); } }
      a
    else
      var rest := OrBits(a / 2, b / 2);
      2 * rest + (if a % 2 == 1 || b % 2 == 1 then 1 else 0)
  }

  lemma {:induction false} OrBitsFits(a: nat, b: nat, width: nat)
    requires a < Pow2(width) && b < Pow2(width)
    ensures OrBits(a, b) < Pow2(width)
    decreases width
  {
    if a != 0 && b != 0 {
      OrBitsFits(a / 2, b / 2, width - 1);
    }
  }

  /** The C++ `a | b` on 32-bit words. */
  function Or(a: U32, b: U32): (word: U32)
    ensures forall i: nat :: Test(word, i) <==> Test(a, i) || Test(b, i)
  {
    Pow2Values();
    OrBitsFits(a, b, 32);
    OrBits(a, b)
  }

  function AndBits(a: nat, b: nat): (r: nat)
    ensures r <= a
    ensures forall i: nat :: Test(r, i) <==> Test(a, i) && Test(b, i)
    decreases a
  {
    if a == 0 then
      assert forall i: nat :: !Test(0, i) by { forall i: nat { ZeroHasNoBits(i); } }
      0
    else
      2 * AndBits(a / 2, b / 2) + (if a % 2 == 1 && b % 2 == 1 then 1 else 0)
  }

  /** The C++ `a & b` on 32-bit words. */
  function And(a: U32, b: U32): (word: U32)
    ensures forall i: nat :: Test(word, i) <==> Test(a, i) && Test(b, i)
  {
    AndBits(a, b)
  }

  function ClearBits(a: nat, b: nat): (r: nat)
    ensures r <= a
    ensures forall i: nat :: Test(r, i) <==> Test(a, i) && !Test(b, i)
    decreases a
  {
    if a == 0 then
      assert forall i: nat :: !Test(0, i) by { forall i: nat { ZeroHasNoBits(i); } }
      0
    else
      2 * ClearBits(a / 2, b / 2) + (if a % 2 == 1 && b % 2 == 0 then 1 else 0)
  }

  /** The C++ `a & ~b` on 32-bit words: what a write-one-to-clear register keeps of `a`. */
  function AndNot(a: U32, b: U32): (word: U32)
    ensures forall i: nat :: Test(word, i) <==> Test(a, i) && !Test(b, i)
  {
    ClearBits(a, b)
  }

  // ---- Shifts ----

  /** The C++ `x << n`, where the result fits. */
  function ShiftLeft(x: nat, n: nat): nat {
    x * Pow2(n)
  }

  /** The C++ `x >> n`. */
  function ShiftRight(x: nat, n: nat): nat
    decreases n
  {
    if n == 0 then x else ShiftRight(x / 2, n - 1)
  }

  lemma {:induction false} ShiftLeftBit(x: nat, n: nat, index: nat)
    ensures Test(ShiftLeft(x, n), index) <==> index >= n && Test(x, index - n)
    decreases n
  {
    if n != 0 {
      assert x * Pow2(n) == 2 * (x * Pow2(n - 1));
      if index != 0 {
        ShiftLeftBit(x, n - 1, index - 1);
      }
    }
  }

  lemma {:induction false} ShiftRightBit(x: nat, n: nat, index: nat)
    ensures Test(ShiftRight(x, n), index) <==> Test(x, index + n)
    decreases n
  {
    if n != 0 {
      ShiftRightBit(x / 2, n - 1, index);
    }
  }

  lemma {:induction false} HighBitsClear(x: nat, width: nat, index: nat)
    requires x < Pow2(width) && index >= width
    ensures !Test(x, index)
    decreases width
  {
    if width == 0 {
      ZeroHasNoBits(index);
    } else {
      HighBitsClear(x / 2, width - 1, index - 1);
    }
  }

  /** A word is determined by its bits. */
  lemma {:induction false} BitsDetermine(a: nat, b: nat, width: nat)
    requires a < Pow2(width) && b < Pow2(width)
    requires forall i: nat :: i < width ==> (Test(a, i) <==> Test(b, i))
    ensures a == b
    decreases width
  {
    if width != 0 {
      assert Test(a, 0) <==> Test(b, 0);
      forall i: nat | i < width - 1
        ensures Test(a / 2, i) <==> Test(b / 2, i)
      {
        assert Test(a, i + 1) <==> Test(b, i + 1);
      }
      BitsDetermine(a / 2, b / 2, width - 1);
    }
  }

  /** The bits of a number put together from a low part of `width` bits and a high part. */
  lemma {:induction false} PartBits(low: nat, high: nat, width: nat, i: nat)
    requires low < Pow2(width)
    ensures Test(low + Pow2(width) * high, i) <==> if i < width then Test(low, i) else Test(high, i - width)
    decreases width
  {
    if width != 0 {
      var half := low / 2 + Pow2(width - 1) * high;
      assert Pow2(width) * high == 2 * (Pow2(width - 1) * high);
      assert (low + Pow2(width) * high) / 2 == half && (low + Pow2(width) * high) % 2 == low % 2;
      if i != 0 {
        PartBits(low / 2, high, width - 1, i - 1);
      }
    }
  }

  /** Or-ing words without a common bit is adding them. */
  lemma OrOfParts(low: U32, high: nat, width: nat, b: U32)
    requires low < Pow2(width) && b == Pow2(width) * high && low + b < TWO32
    ensures Or(low, b) == low + b
  {
    ZeroHasNoBits(width);
    Pow2Values();
    forall i: nat | i < 32
      ensures Test(Or(low, b), i) <==> Test(low + b, i)
    {
      PartBits(low, high, width, i);
      PartBits(0, high, width, i);
      ZeroHasNoBits(i);
      if i >= width {
        HighBitsClear(low, width, i);
      }
    }
    BitsDetermine(Or(low, b), low + b, 32);
  }

  /** A word other than zero has a bit. */
  lemma {:induction false} NonzeroHasBit(x: nat) returns (index: nat)
    requires x != 0
    ensures Test(x, index)
    decreases x
  {
    if x % 2 == 1 {
      index := 0;
    } else {
      var rest := NonzeroHasBit(x / 2);
      index := rest + 1;
    }
  }
}

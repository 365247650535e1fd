/** Accumulators of 64 bits and exact sums. */
module Accumulators {
  import opened Words
  import opened Sums
  import opened VectorModel

  /** A 64-bit unsigned accumulator. */
  function WrapUnsigned(x: int): nat {
    x % TWO64
  }

  /** A 64-bit two's-complement accumulator. */
  function WrapSigned(x: int): int {
    var u := x % TWO64;
    if u < TWO64 / 2 then u else u - TWO64
  }

  function Wrap(x: int, signedMode: bool): (v: int)
    ensures !signedMode ==> v >= 0
  {
    if signedMode then WrapSigned(x) else WrapUnsigned(x)
  }

  /** A wrapped value differs from the exact one by a multiple of 2^64. */
  lemma WrapQuotient(x: int, signedMode: bool) returns (q: int)
    ensures x == TWO64 * q + Wrap(x, signedMode)
  {
    q := x / TWO64;
    if signedMode && x % TWO64 >= TWO64 / 2 {
      q := q + 1;
    }
  }

  /** A number is wrapped to the one representative of its class in range. */
  lemma WrapUnique(x: int, q: int, v: int, signedMode: bool)
    requires x == TWO64 * q + v
    requires if signedMode then -0x8000_0000_0000_0000 <= v < 0x8000_0000_0000_0000 else 0 <= v < TWO64
    ensures Wrap(x, signedMode) == v
  {
    if v >= 0 {
      ModUnique(x, TWO64, q, v);
    } else {
      ModUnique(x, TWO64, q - 1, v + TWO64);
    }
  }

  lemma WrapRange(x: int, signedMode: bool)
    ensures var v := Wrap(x, signedMode);
      if signedMode then -0x8000_0000_0000_0000 <= v < 0x8000_0000_0000_0000 else 0 <= v < TWO64
  {
  }

  /** Wrapping at every step is wrapping the exact sum once. */
  lemma WrapStep(x: int, y: int, signedMode: bool)
    ensures Wrap(Wrap(x, signedMode) + y, signedMode) == Wrap(x + y, signedMode)
  {
    var p := WrapQuotient(x, signedMode);
    var q := WrapQuotient(x + y, signedMode);
    WrapRange(x + y, signedMode);
    WrapUnique(Wrap(x, signedMode) + y, q - p, Wrap(x + y, signedMode), signedMode);
  }

  /** A wrapped accumulator keeps the low 16 bits, and an in-range one keeps its value. */
  lemma WrapMeaning(x: int, signedMode: bool)
    ensures Wrap(x, signedMode) % TWO16 == x % TWO16
    ensures (if signedMode then -0x8000_0000_0000_0000 <= x < 0x8000_0000_0000_0000 else 0 <= x < TWO64) ==>
      Wrap(x, signedMode) == x
  {
    var q := WrapQuotient(x, signedMode);
    CongruentBy(x, Wrap(x, signedMode), 0x1_0000_0000_0000 * q);
    if if signedMode then -0x8000_0000_0000_0000 <= x < 0x8000_0000_0000_0000 else 0 <= x < TWO64 {
      WrapUnique(x, 0, x, signedMode);
    }
  }

  /** Truncating a wrapped sum is truncating the exact sum; saturating needs the sum to fit. */
  lemma ConvertWrapped(x: int, signedMode: bool, saturate: bool)
    requires signedMode || x >= 0
    requires saturate ==> if signedMode then -0x8000_0000_0000_0000 <= x < 0x8000_0000_0000_0000 else x < TWO64
    ensures Convert(Wrap(x, signedMode), signedMode, saturate) == Convert(x, signedMode, saturate)
  {
    WrapMeaning(x, signedMode);
  }
}

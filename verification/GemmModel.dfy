/** The reference model of the GEMM accelerator. */
module GemmModel {
  import opened Words
  import opened Sums
  import opened Matrices
  import opened VectorModel
  import opened Accumulators

  /** The product that inner index `k` contributes to output (row, column). */
  function Term(a: seq<U16>, b: seq<U16>, inner: nat, columns: nat, row: nat, column: nat, signedMode: bool)
    : nat -> int
  {
    (k: nat) => Value(At(a, row * inner + k), signedMode) * Value(At(b, k * columns + column), signedMode)
  }

  /** The exact dot product of a row of `a` and a column of `b`, over the first `n` inner indices. */
  function Dot(a: seq<U16>, b: seq<U16>, inner: nat, columns: nat, row: nat, column: nat, n: nat, signedMode: bool)
    : int
  {
    Sum(Term(a, b, inner, columns, row, column, signedMode), n)
  }

  lemma TermBounds(x: int, y: int, signedMode: bool)
    requires Lowest(signedMode) <= x <= Highest(signedMode) && Lowest(signedMode) <= y <= Highest(signedMode)
    ensures (if signedMode then -0x4000_0000 else 0) <= x * y <= (if signedMode then 0x4000_0000 else 0xFFFE_0001)
  {
    MulBound(x, y, if signedMode then 0x8000 else 0xFFFF);
    if !signedMode {
      MulNonnegative(x, y);
    }
  }

  /** A dot product of n terms stays within n times the largest product. */
  lemma DotBounds(a: seq<U16>, b: seq<U16>, inner: nat, columns: nat, row: nat, column: nat, n: nat, signedMode: bool)
    ensures var d := Dot(a, b, inner, columns, row, column, n, signedMode);
      if signedMode then -0x4000_0000 * n <= d <= 0x4000_0000 * n else 0 <= d <= 0xFFFE_0001 * n
  {
    var term := Term(a, b, inner, columns, row, column, signedMode);
    var low := if signedMode then -0x4000_0000 else 0;
    var high := if signedMode then 0x4000_0000 else 0xFFFE_0001;
    forall k: nat | k < n
      ensures low <= term(k) <= high
    {
      TermBounds(Value(At(a, row * inner + k), signedMode), Value(At(b, k * columns + column), signedMode), signedMode);
    }
    SumBounds(term, low, high, n);
  }

  lemma DotNonnegative(a: seq<U16>, b: seq<U16>, inner: nat, columns: nat, row: nat, column: nat, n: nat)
    ensures Dot(a, b, inner, columns, row, column, n, false) >= 0
  {
    DotBounds(a, b, inner, columns, row, column, n, false);
  }

  /** The largest inner dimension whose dot products fit in a 64-bit accumulator whatever the data. */
  function MaxInner(signedMode: bool): nat {
    if signedMode then 0x1_FFFF_FFFF else 0x1_0002_0003
  }

  /** Up to that dimension no accumulator overflows. */
  lemma AccumulatorsFit(a: seq<U16>, b: seq<U16>, inner: nat, columns: nat, row: nat, column: nat, n: nat,
                        signedMode: bool)
    requires n <= MaxInner(signedMode)
    ensures var d := Dot(a, b, inner, columns, row, column, n, signedMode);
      && Wrap(d, signedMode) == d
      && if signedMode then -0x8000_0000_0000_0000 <= d < 0x8000_0000_0000_0000 else 0 <= d < TWO64
  {
    DotBounds(a, b, inner, columns, row, column, n, signedMode);
    WrapMeaning(Dot(a, b, inner, columns, row, column, n, signedMode), signedMode);
  }

  /** One output element: the exact dot product, converted once. */
  function Output(a: seq<U16>, b: seq<U16>, inner: nat, columns: nat, row: nat, column: nat,
                  signedMode: bool, saturate: bool): U16
  {
    DotNonnegative(a, b, inner, columns, row, column, inner);
    Convert(Dot(a, b, inner, columns, row, column, inner, signedMode), signedMode, saturate)
  }

  function Outputs(a: seq<U16>, b: seq<U16>, columns: nat, inner: nat, signedMode: bool, saturate: bool)
    : (nat, nat) -> U16
  {
    (row: nat, column: nat) => Output(a, b, inner, columns, row, column, signedMode, saturate)
  }

  /** The exact product, row after row. */
  function GemmSpec(a: seq<U16>, b: seq<U16>, rows: nat, columns: nat, inner: nat,
                    signedMode: bool, saturate: bool): (product: seq<U16>)
    ensures |product| == rows * columns
  {
    Matrix(Outputs(a, b, columns, inner, signedMode, saturate), rows, columns)
  }

  /** Where the output of (row, column) sits in the row-major result. */
  lemma GemmEntry(a: seq<U16>, b: seq<U16>, rows: nat, columns: nat, inner: nat, row: nat, column: nat,
                  signedMode: bool, saturate: bool)
    requires row < rows && column < columns
    ensures At(GemmSpec(a, b, rows, columns, inner, signedMode, saturate), row * columns + column)
         == Output(a, b, inner, columns, row, column, signedMode, saturate)
  {
    MatrixEntry(Outputs(a, b, columns, inner, signedMode, saturate), rows, columns, row, column);
  }

  /** The products of element (row, k) of the left and element (k, column) of the right matrix, by k. */
  function Products(a: seq<U16>, b: seq<U16>, columns: nat, inner: nat, row: nat, column: nat, signedMode: bool)
    : nat -> int
  {
    (k: nat) => Value(At(a, row * inner + k), signedMode) * Value(At(b, k * columns + column), signedMode)
  }

  /** Entry (row, column) of a product in terms of the operands: it represents the sum, over the inner index k, of
      the products of element (row, k) of the left and element (k, column) of the right one, all row-major. */
  predicate EntryMeaning(a: seq<U16>, b: seq<U16>, columns: nat, inner: nat, row: nat, column: nat, product: seq<U16>,
                         signedMode: bool, saturate: bool)
  {
    Represents(At(product, row * columns + column),
               Sum(Products(a, b, columns, inner, row, column, signedMode), inner), signedMode, saturate)
  }

  ghost predicate ProductMeaning(a: seq<U16>, b: seq<U16>, rows: nat, columns: nat, inner: nat, product: seq<U16>,
                                 signedMode: bool, saturate: bool)
  {
    && |product| == rows * columns
    && forall row: nat, column: nat :: row < rows && column < columns ==>
      EntryMeaning(a, b, columns, inner, row, column, product, signedMode, saturate)
  }

  lemma EntryIsMeant(a: seq<U16>, b: seq<U16>, rows: nat, columns: nat, inner: nat, row: nat, column: nat,
                     signedMode: bool, saturate: bool)
    requires row < rows && column < columns
    ensures EntryMeaning(a, b, columns, inner, row, column,
                         GemmSpec(a, b, rows, columns, inner, signedMode, saturate), signedMode, saturate)
  {
    GemmEntry(a, b, rows, columns, inner, row, column, signedMode, saturate);
    DotNonnegative(a, b, inner, columns, row, column, inner);
    ConvertRepresents(Dot(a, b, inner, columns, row, column, inner, signedMode), signedMode, saturate);
    SumEqual(Term(a, b, inner, columns, row, column, signedMode),
             Products(a, b, columns, inner, row, column, signedMode), inner);
  }

  lemma GemmMeaning(a: seq<U16>, b: seq<U16>, rows: nat, columns: nat, inner: nat, signedMode: bool, saturate: bool)
    ensures ProductMeaning(a, b, rows, columns, inner, GemmSpec(a, b, rows, columns, inner, signedMode, saturate),
                           signedMode, saturate)
  {
    forall row: nat, column: nat | row < rows && column < columns
      ensures EntryMeaning(a, b, columns, inner, row, column,
                           GemmSpec(a, b, rows, columns, inner, signedMode, saturate), signedMode, saturate)
    {
      EntryIsMeant(a, b, rows, columns, inner, row, column, signedMode, saturate);
    }
  }

  // ---- What 64-bit accumulators compute ----

  /** The dot product modulo 2^64, converted once. */
  function WrappedOutput(a: seq<U16>, b: seq<U16>, inner: nat, columns: nat, row: nat, column: nat,
                         signedMode: bool, saturate: bool): U16
  {
    Convert(Wrap(Dot(a, b, inner, columns, row, column, inner, signedMode), signedMode), signedMode, saturate)
  }

  function WrappedOutputs(a: seq<U16>, b: seq<U16>, columns: nat, inner: nat, signedMode: bool, saturate: bool)
    : (nat, nat) -> U16
  {
    (row: nat, column: nat) => WrappedOutput(a, b, inner, columns, row, column, signedMode, saturate)
  }

  /** The product of 64-bit accumulators, for any dimensions. */
  function WrappedGemm(a: seq<U16>, b: seq<U16>, rows: nat, columns: nat, inner: nat,
                       signedMode: bool, saturate: bool): seq<U16>
  {
    Matrix(WrappedOutputs(a, b, columns, inner, signedMode, saturate), rows, columns)
  }

  /** It is the exact product: always when truncating, and up to the largest inner dimension when saturating. */
  lemma WrappedIsExact(a: seq<U16>, b: seq<U16>, rows: nat, columns: nat, inner: nat, signedMode: bool, saturate: bool)
    requires saturate ==> inner <= MaxInner(signedMode)
    ensures WrappedGemm(a, b, rows, columns, inner, signedMode, saturate)
         == GemmSpec(a, b, rows, columns, inner, signedMode, saturate)
  {
    var f := WrappedOutputs(a, b, columns, inner, signedMode, saturate);
    var g := Outputs(a, b, columns, inner, signedMode, saturate);
    forall row: nat, column: nat
      ensures f(row, column) == g(row, column)
    {
      DotNonnegative(a, b, inner, columns, row, column, inner);
      if saturate {
        AccumulatorsFit(a, b, inner, columns, row, column, inner, signedMode);
      }
      ConvertWrapped(Dot(a, b, inner, columns, row, column, inner, signedMode), signedMode, saturate);
    }
    MatricesEqual(f, g, rows, columns);
  }

  /** Matrices whose first output overflows: its terms are largest products, as many as fit, and then one that
      is too much. */
  function LeftElement(k: nat, signedMode: bool): U16 {
    if signedMode then (if k <= MaxInner(true) then 0x8000 else 0)
    else if k < MaxInner(false) then 0xFFFF
    else if k == MaxInner(false) then 5
    else 0
  }

  function RightElement(signedMode: bool): U16 {
    if signedMode then 0x8000 else 0xFFFF
  }

  function LeftOverflowing(rows: nat, inner: nat, signedMode: bool): seq<U16> {
    seq(rows * inner, k requires 0 <= k < rows * inner => LeftElement(k, signedMode))
  }

  function RightOverflowing(columns: nat, inner: nat, signedMode: bool): seq<U16> {
    var element := RightElement(signedMode);
    seq(inner * columns, k requires 0 <= k < inner * columns => element)
  }

  /** The terms of their first output, which exceeds the accumulator: 2^63 when signed, 2^64 + 65534 when not. */
  function OverflowingTerms(signedMode: bool): nat -> int {
    if signedMode then Steps(MaxInner(true), 0x4000_0000, 0x4000_0000)
    else Steps(MaxInner(false), 0xFFFE_0001, 5 * 0xFFFF)
  }

  lemma OverflowingTerm(rows: nat, columns: nat, inner: nat, k: nat, signedMode: bool)
    requires rows != 0 && columns != 0 && k < inner
    ensures Term(LeftOverflowing(rows, inner, signedMode), RightOverflowing(columns, inner, signedMode),
                 inner, columns, 0, 0, signedMode)(k) == OverflowingTerms(signedMode)(k)
  {
    InsideMatrix(0, rows, k, inner);
    InsideMatrix(k, inner, 0, columns);
    assert At(LeftOverflowing(rows, inner, signedMode), 0 * inner + k) == LeftElement(k, signedMode);
    assert At(RightOverflowing(columns, inner, signedMode), k * columns + 0) == RightElement(signedMode);
  }

  lemma OverflowingDot(rows: nat, columns: nat, inner: nat, signedMode: bool)
    requires rows != 0 && columns != 0 && inner > MaxInner(signedMode)
    ensures Dot(LeftOverflowing(rows, inner, signedMode), RightOverflowing(columns, inner, signedMode),
                inner, columns, 0, 0, inner, signedMode)
         == if signedMode then 0x8000_0000_0000_0000 else TWO64 + 65534
  {
    var a, b := LeftOverflowing(rows, inner, signedMode), RightOverflowing(columns, inner, signedMode);
    forall k: nat | k < inner
      ensures Term(a, b, inner, columns, 0, 0, signedMode)(k) == OverflowingTerms(signedMode)(k)
    {
      OverflowingTerm(rows, columns, inner, k, signedMode);
    }
    SumEqual(Term(a, b, inner, columns, 0, 0, signedMode), OverflowingTerms(signedMode), inner);
    if signedMode {
      SumSteps(MaxInner(true), 0x4000_0000, 0x4000_0000, inner);
    } else {
      SumSteps(MaxInner(false), 0xFFFE_0001, 5 * 0xFFFF, inner);
    }
  }

  /** All saturating products of these dimensions are exact. */
  ghost predicate AlwaysExact(rows: nat, columns: nat, inner: nat, signedMode: bool) {
    forall a: seq<U16>, b: seq<U16> :: |a| == rows * inner && |b| == inner * columns ==>
      var exact := GemmSpec(a, b, rows, columns, inner, signedMode, true);
      WrappedGemm(a, b, rows, columns, inner, signedMode, true) == exact
  }

  /** The exact limit of saturating GEMM: up to it every product is exact, above it some product of every shape
      is not. */
  lemma SaturatingLimit(rows: nat, columns: nat, inner: nat, signedMode: bool)
    requires rows != 0 && columns != 0
    ensures AlwaysExact(rows, columns, inner, signedMode) <==> inner <= MaxInner(signedMode)
  {
    if inner <= MaxInner(signedMode) {
      forall a: seq<U16>, b: seq<U16> | |a| == rows * inner && |b| == inner * columns
        ensures WrappedGemm(a, b, rows, columns, inner, signedMode, true)
             == GemmSpec(a, b, rows, columns, inner, signedMode, true)
      {
        WrappedIsExact(a, b, rows, columns, inner, signedMode, true);
      }
    } else {
      var a, b := LeftOverflowing(rows, inner, signedMode), RightOverflowing(columns, inner, signedMode);
      OverflowingDot(rows, columns, inner, signedMode);
      MatrixEntry(Outputs(a, b, columns, inner, signedMode, true), rows, columns, 0, 0);
      MatrixEntry(WrappedOutputs(a, b, columns, inner, signedMode, true), rows, columns, 0, 0);
      assert Output(a, b, inner, columns, 0, 0, signedMode, true)
          != WrappedOutput(a, b, inner, columns, 0, 0, signedMode, true);
    }
  }

  // ---- The loops ----

  /** The inner loop: a 64-bit accumulator over the inner index. */
  method Accumulate(a: seq<U16>, b: seq<U16>, rows: nat, columns: nat, inner: nat, row: nat, column: nat,
                    signedMode: bool)
    returns (accumulator: int)
    requires row < rows && column < columns && |a| == rows * inner && |b| == inner * columns
    ensures accumulator == Wrap(Dot(a, b, inner, columns, row, column, inner, signedMode), signedMode)
  {
    accumulator := 0;
    for k := 0 to inner
      invariant accumulator == Wrap(Dot(a, b, inner, columns, row, column, k, signedMode), signedMode)
    {
      InsideMatrix(row, rows, k, inner);
      InsideMatrix(k, inner, column, columns);
      var product := Value(a[row * inner + k], signedMode) * Value(b[k * columns + column], signedMode);
      assert product == Term(a, b, inner, columns, row, column, signedMode)(k);
      WrapStep(Dot(a, b, inner, columns, row, column, k, signedMode), product, signedMode);
      accumulator := Wrap(accumulator + product, signedMode);
    }
  }

  /** Sizes and indices are 64-bit, and their products wrap around. */
  type Size = x: int | 0 <= x < TWO64

  function SizeProduct(x: Size, y: Size): Size {
    (x * y) % TWO64
  }

  function Index(row: Size, stride: Size, column: Size): Size {
    (SizeProduct(row, stride) + column) % TWO64
  }

  /** The dimension check as computed. */
  predicate DimensionsPass(a: seq<U16>, b: seq<U16>, rows: Size, columns: Size, inner: Size) {
    && rows != 0 && columns != 0 && inner != 0
    && |a| == SizeProduct(rows, inner) && |b| == SizeProduct(inner, columns)
  }

  /** The three matrices have less than 2^64 elements each. */
  predicate SizesFit(rows: Size, columns: Size, inner: Size) {
    rows * inner < TWO64 && inner * columns < TWO64 && rows * columns < TWO64
  }

  /** Every element access of the loops is inside its vector. */
  ghost predicate AccessesInside(a: seq<U16>, b: seq<U16>, rows: Size, columns: Size, inner: Size) {
    && (forall row: Size, k: Size :: row < rows && k < inner ==> Index(row, inner, k) < |a|)
    && (forall k: Size, column: Size :: k < inner && column < columns ==> Index(k, columns, column) < |b|)
    && (forall row: Size, column: Size ::
          row < rows && column < columns ==> Index(row, columns, column) < SizeProduct(rows, columns))
  }

  lemma SmallRemainder(p: nat)
    requires p < TWO64
    ensures p % TWO64 == p
  {
  }

  lemma SmallProduct(x: Size, y: Size)
    requires x * y < TWO64
    ensures SizeProduct(x, y) == x * y
  {
    MulNonnegative(x, y);
    SmallRemainder(x * y);
  }

  lemma PlainIndex(row: Size, rows: Size, column: Size, columns: Size)
    requires row < rows && column < columns && rows * columns < TWO64
    ensures Index(row, columns, column) == row * columns + column < rows * columns
  {
    InsideMatrix(row, rows, column, columns);
    MulNonnegative(row, columns);
    SmallProduct(row, columns);
  }

  /** Every index below a product of dimensions belongs to some row and column. */
  lemma RowAndColumn(size: nat, rows: nat, columns: nat) returns (row: nat, column: nat)
    requires size < rows * columns
    ensures row < rows && column < columns && row * columns + column == size
  {
    if columns != 0 {
      row, column := size / columns, size % columns;
      if row >= rows {
        MulOrder(rows, row, columns);
      }
    }
  }

  /** The index just past a vector of a wrapped size is reached. */
  lemma IndexPastEnd(rows: Size, columns: Size) returns (row: Size, column: Size)
    requires rows * columns >= TWO64
    ensures row < rows && column < columns && Index(row, columns, column) == SizeProduct(rows, columns)
  {
    var size := SizeProduct(rows, columns);
    row, column := RowAndColumn(size, rows, columns);
    MulNonnegative(row, columns);
    SmallProduct(row, columns);
  }

  /** With dimensions that pass the check, the accesses stay inside exactly when no size wraps around. */
  lemma AccessesStayInside(a: seq<U16>, b: seq<U16>, rows: Size, columns: Size, inner: Size)
    requires DimensionsPass(a, b, rows, columns, inner)
    ensures AccessesInside(a, b, rows, columns, inner) <==> SizesFit(rows, columns, inner)
  {
    if SizesFit(rows, columns, inner) {
      AccessesInsideWhenFit(a, b, rows, columns, inner);
    } else if rows * inner >= TWO64 {
      var row, k := IndexPastEnd(rows, inner);
    } else if inner * columns >= TWO64 {
      var k, column := IndexPastEnd(inner, columns);
    } else {
      var row, column := IndexPastEnd(rows, columns);
    }
  }

  lemma AccessesInsideWhenFit(a: seq<U16>, b: seq<U16>, rows: Size, columns: Size, inner: Size)
    requires DimensionsPass(a, b, rows, columns, inner) && SizesFit(rows, columns, inner)
    ensures AccessesInside(a, b, rows, columns, inner)
    ensures |a| == rows * inner && |b| == inner * columns && SizeProduct(rows, columns) == rows * columns
  {
    MulNonnegative(rows, columns);
    MulNonnegative(rows, inner);
    MulNonnegative(inner, columns);
    SmallProduct(rows, columns);
    SmallProduct(rows, inner);
    SmallProduct(inner, columns);
    forall row: Size, k: Size | row < rows && k < inner
      ensures Index(row, inner, k) < |a|
    {
      PlainIndex(row, rows, k, inner);
    }
    forall k: Size, column: Size | k < inner && column < columns
      ensures Index(k, columns, column) < |b|
    {
      PlainIndex(k, inner, column, columns);
    }
    forall row: Size, column: Size | row < rows && column < columns
      ensures Index(row, columns, column) < SizeProduct(rows, columns)
    {
      PlainIndex(row, rows, column, columns);
    }
  }

  datatype Outcome = Finished(product: seq<U16>) | InvalidDimensions | OutOfBounds

  /** `gemm_operation`: dimensions that fail the check are an error; dimensions that pass only because a size
      wrapped around lead outside the vectors; otherwise every element of the row-major result is the dot
      product of a 64-bit accumulator, converted once, and that is the exact product up to the limit. */
  method GemmOperation(a: seq<U16>, b: seq<U16>, rows: Size, columns: Size, inner: Size, signedMode: bool,
                       saturate: bool)
    returns (r: Outcome)
    ensures r.InvalidDimensions? <==> !DimensionsPass(a, b, rows, columns, inner)
    ensures r.OutOfBounds? <==>
      DimensionsPass(a, b, rows, columns, inner) && !AccessesInside(a, b, rows, columns, inner)
    ensures r.InvalidDimensions? <==>
      || rows == 0 || columns == 0 || inner == 0
      || |a| != (rows * inner) % 0x1_0000_0000_0000_0000 || |b| != (inner * columns) % 0x1_0000_0000_0000_0000
    ensures r.OutOfBounds? ==> !SizesFit(rows, columns, inner)
    ensures r.Finished? ==> SizesFit(rows, columns, inner)
    ensures r.Finished? ==> r.product == WrappedGemm(a, b, rows, columns, inner, signedMode, saturate)
    ensures r.Finished? && (!saturate || inner <= MaxInner(signedMode)) ==>
      && r.product == GemmSpec(a, b, rows, columns, inner, signedMode, saturate)
      && ProductMeaning(a, b, rows, columns, inner, r.product, signedMode, saturate)
  {
    if rows == 0 || columns == 0 || inner == 0
       || |a| != SizeProduct(rows, inner) || |b| != SizeProduct(inner, columns) {
      return InvalidDimensions;
    }
    AccessesStayInside(a, b, rows, columns, inner);
    if rows * inner >= TWO64 || inner * columns >= TWO64 || rows * columns >= TWO64 {
      return OutOfBounds;
    }
    AccessesInsideWhenFit(a, b, rows, columns, inner);
    MulNonnegative(rows, columns);
    var result := new U16[rows * columns](_ => 0);
    GemmRows(a, b, rows, columns, inner, signedMode, saturate, result);
    r := Finished(result[..]);
    if !saturate || inner <= MaxInner(signedMode) {
      WrappedIsExact(a, b, rows, columns, inner, signedMode, saturate);
      GemmMeaning(a, b, rows, columns, inner, signedMode, saturate);
    }
  }

  /** The row loop. */
  method GemmRows(a: seq<U16>, b: seq<U16>, rows: nat, columns: nat, inner: nat, signedMode: bool, saturate: bool,
                  result: array<U16>)
    requires |a| == rows * inner && |b| == inner * columns && result.Length == rows * columns
    modifies result
    ensures result[..] == WrappedGemm(a, b, rows, columns, inner, signedMode, saturate)
  {
    ghost var base := 0;
    for row := 0 to rows
      invariant base == row * columns <= result.Length
      invariant result[..base] == WrappedGemm(a, b, row, columns, inner, signedMode, saturate)
    {
      NextRow(row, rows, columns);
      GemmRow(a, b, rows, columns, inner, row, signedMode, saturate, result, row * columns);
      base := base + columns;
    }
    assert result[..base] == result[..];
  }

  /** The column loop of one row; `base` is the row's first index in the result. */
  method GemmRow(a: seq<U16>, b: seq<U16>, rows: nat, columns: nat, inner: nat, row: nat, signedMode: bool,
                 saturate: bool, result: array<U16>, base: nat)
    requires row < rows && |a| == rows * inner && |b| == inner * columns && base + columns <= result.Length
    modifies result
    ensures result[..base + columns]
         == old(result[..base]) + Row(WrappedOutputs(a, b, columns, inner, signedMode, saturate), row, columns)
  {
    for column := 0 to columns
      invariant result[..base] == old(result[..base])
      invariant forall c :: 0 <= c < column ==>
        result[base + c] == WrappedOutput(a, b, inner, columns, row, c, signedMode, saturate)
    {
      var accumulator := Accumulate(a, b, rows, columns, inner, row, column, signedMode);
      result[base + column] := Convert(accumulator, signedMode, saturate);
    }
    assert result[..base + columns] == result[..base] + result[base..base + columns];
  }
}

/** Truncating arithmetic is arithmetic modulo 2^16. */
module Modular {
  import opened Words
  import opened Soc
  import opened Sums
  import opened Matrices
  import opened VectorModel
  import opened ReductionModel
  import opened GemmModel

  /** With truncation, the signedness of add, multiply and scale does not matter. */
  lemma SignednessIrrelevantVector(opcode: U32, lhs: U16, rhs: U16)
    requires opcode == CMD_OP_VECTOR_ADD || opcode == CMD_OP_VECTOR_MULTIPLY || opcode == CMD_OP_VECTOR_SCALE
    ensures VectorElementSpec(opcode, lhs, rhs, true, false) == VectorElementSpec(opcode, lhs, rhs, false, false)
  {
    var x, y := Value(lhs, true), Value(rhs, true);
    if opcode == CMD_OP_VECTOR_ADD {
      ModPlus(x, y);
      ModPlus(lhs, rhs);
      TruncationOfCongruent(x + y, lhs + rhs);
    } else {
      CongruentProduct(x, lhs, y, rhs);
      MulNonnegative(lhs, rhs);
      TruncationOfCongruent(x * y, lhs * rhs);
    }
  }

  /** Truncation keeps only the low 16 bits. */
  lemma TruncationOfCongruent(x: int, y: nat)
    requires Congruent(x, y)
    ensures SignedResult(x, false) == UnsignedResult(y, false)
  {
  }

  /** Wrapping to 16 bits after every addition. */
  function WrappedTotal(source: seq<U16>): U16
    decreases |source|
  {
    if |source| == 0 then 0
    else (WrappedTotal(source[..|source| - 1]) + source[|source| - 1]) % TWO16
  }

  lemma {:induction false} TruncatedTotal(source: seq<U16>, signedMode: bool)
    ensures Convert(Total(source, signedMode), signedMode, false) == WrappedTotal(source)
    decreases |source|
  {
    if |source| != 0 {
      TruncatedTotal(source[..|source| - 1], signedMode);
      ModPlus(Total(source[..|source| - 1], signedMode), Value(source[|source| - 1], signedMode));
    }
  }

  /** Truncating a sum once at the end equals wrapping at every step, in either signedness. */
  lemma TruncatedSum(source: seq<U16>, signedMode: bool)
    requires |source| != 0
    ensures ReductionSpec(CMD_OP_REDUCE_SUM, source, signedMode, false) == WrappedTotal(source)
  {
    TruncatedTotal(source, signedMode);
  }

  /** A dot product computed in 16 bits throughout: products and sums wrapped at every step. */
  function WrappedDot(a: seq<U16>, b: seq<U16>, inner: nat, columns: nat, row: nat, column: nat, n: nat): U16 {
    if n == 0 then 0
    else
      (WrappedDot(a, b, inner, columns, row, column, n - 1)
       + (At(a, row * inner + (n - 1)) * At(b, (n - 1) * columns + column)) % TWO16) % TWO16
  }

  lemma WrappedStep(d: int, wrapped: U16, x: U16, y: U16, signedMode: bool)
    requires d % TWO16 == wrapped
    ensures (d + Value(x, signedMode) * Value(y, signedMode)) % TWO16 == (wrapped + (x * y) % TWO16) % TWO16
  {
    CongruentProduct(Value(x, signedMode), x, Value(y, signedMode), y);
    CongruentAddition(d, wrapped, Value(x, signedMode) * Value(y, signedMode), x * y);
  }

  lemma CongruentAddition(d: int, wrapped: U16, p: int, q: int)
    requires d % TWO16 == wrapped && Congruent(p, q)
    ensures (d + p) % TWO16 == (wrapped + q % TWO16) % TWO16
  {
    ModPlus(d, p);
  }

  lemma DotStep(a: seq<U16>, b: seq<U16>, inner: nat, columns: nat, row: nat, column: nat, n: nat, signedMode: bool,
                x: U16, y: U16)
    requires x == At(a, row * inner + n) && y == At(b, n * columns + column)
    ensures Dot(a, b, inner, columns, row, column, n + 1, signedMode)
         == Dot(a, b, inner, columns, row, column, n, signedMode) + Value(x, signedMode) * Value(y, signedMode)
    ensures WrappedDot(a, b, inner, columns, row, column, n + 1)
         == (WrappedDot(a, b, inner, columns, row, column, n) + (x * y) % TWO16) % TWO16
  {
    assert Term(a, b, inner, columns, row, column, signedMode)(n) == Value(x, signedMode) * Value(y, signedMode);
  }

  lemma {:induction false} DotIsWrapped(a: seq<U16>, b: seq<U16>, inner: nat, columns: nat, row: nat, column: nat,
                                        n: nat, signedMode: bool)
    ensures Dot(a, b, inner, columns, row, column, n, signedMode) % TWO16
         == WrappedDot(a, b, inner, columns, row, column, n)
  {
    if n != 0 {
      DotIsWrapped(a, b, inner, columns, row, column, n - 1, signedMode);
      var x, y := At(a, row * inner + (n - 1)), At(b, (n - 1) * columns + column);
      DotStep(a, b, inner, columns, row, column, n - 1, signedMode, x, y);
      WrappedStep(Dot(a, b, inner, columns, row, column, n - 1, signedMode),
                  WrappedDot(a, b, inner, columns, row, column, n - 1), x, y, signedMode);
    }
  }

  /** A truncating GEMM output does not depend on signedness and can be computed in 16 bits throughout. */
  lemma TruncatedOutput(a: seq<U16>, b: seq<U16>, inner: nat, columns: nat, row: nat, column: nat, signedMode: bool)
    ensures Output(a, b, inner, columns, row, column, signedMode, false)
         == WrappedDot(a, b, inner, columns, row, column, inner)
  {
    DotNonnegative(a, b, inner, columns, row, column, inner);
    DotIsWrapped(a, b, inner, columns, row, column, inner, signedMode);
  }

  /** The truncating product of two matrices. */
  function Product(a: seq<U16>, b: seq<U16>, rows: nat, columns: nat, inner: nat, signedMode: bool): seq<U16> {
    GemmSpec(a, b, rows, columns, inner, signedMode, false)
  }

  /** Signed and unsigned truncating products are bit-identical. */
  lemma SignednessIrrelevantGemm(a: seq<U16>, b: seq<U16>, rows: nat, columns: nat, inner: nat)
    ensures Product(a, b, rows, columns, inner, true) == Product(a, b, rows, columns, inner, false)
  {
    var f, g := Outputs(a, b, columns, inner, true, false), Outputs(a, b, columns, inner, false, false);
    forall row: nat, column: nat
      ensures f(row, column) == g(row, column)
    {
      TruncatedOutput(a, b, inner, columns, row, column, true);
      TruncatedOutput(a, b, inner, columns, row, column, false);
    }
    MatricesEqual(f, g, rows, columns);
  }

  // ---- Associativity ----

  /** An entry of a truncating product is congruent to the plain integer dot product of its factors. */
  lemma ProductEntry(a: seq<U16>, b: seq<U16>, rows: nat, columns: nat, inner: nat, row: nat, column: nat)
    requires row < rows && column < columns
    ensures Congruent(At(Product(a, b, rows, columns, inner, false), row * columns + column),
                      Dot(a, b, inner, columns, row, column, inner, false))
  {
    GemmEntry(a, b, rows, columns, inner, row, column, false, false);
    DotNonnegative(a, b, inner, columns, row, column, inner);
  }

  /** The triple product summed in the order of A(BC), as a function of both inner indices. */
  function TripleTerm(a: seq<U16>, b: seq<U16>, c: seq<U16>, m: nat, n: nat, q: nat, row: nat, column: nat)
    : (nat, nat) -> int
  {
    (k: nat, l: nat) => At(a, row * m + k) * At(b, k * n + l) * At(c, l * q + column)
  }

  /** An entry of (AB)C is congruent to the double sum over l then k. */
  lemma LeftEntry(a: seq<U16>, b: seq<U16>, c: seq<U16>, p: nat, m: nat, n: nat, q: nat, row: nat, column: nat)
    requires row < p && column < q
    ensures var f := TripleTerm(a, b, c, m, n, q, row, column);
      Congruent(Dot(Product(a, b, p, n, m, false), c, n, q, row, column, n, false),
                Sum((l: nat) => Sum((k: nat) => f(k, l), m), n))
  {
    var f := TripleTerm(a, b, c, m, n, q, row, column);
    var ab := Product(a, b, p, n, m, false);
    var term := Term(ab, c, n, q, row, column, false);
    var double := (l: nat) => Sum((k: nat) => f(k, l), m);
    forall l: nat | l < n
      ensures Congruent(term(l), double(l))
    {
      var z := At(c, l * q + column);
      ProductEntry(a, b, p, n, m, row, l);
      CongruentProduct(At(ab, row * n + l), Dot(a, b, m, n, row, l, m, false), z, z);
      SumScaled(Term(a, b, m, n, row, l, false), z, m);
      SumEqual((k: nat) => Term(a, b, m, n, row, l, false)(k) * z, (k: nat) => f(k, l), m);
    }
    CongruentSum(term, double, n);
  }

  /** An entry of A(BC) is congruent to the double sum over k then l. */
  lemma RightEntry(a: seq<U16>, b: seq<U16>, c: seq<U16>, m: nat, n: nat, q: nat, row: nat, column: nat)
    requires column < q
    ensures var f := TripleTerm(a, b, c, m, n, q, row, column);
      Congruent(Dot(a, Product(b, c, m, q, n, false), m, q, row, column, m, false),
                Sum((k: nat) => Sum((l: nat) => f(k, l), n), m))
  {
    var f := TripleTerm(a, b, c, m, n, q, row, column);
    var bc := Product(b, c, m, q, n, false);
    var term := Term(a, bc, m, q, row, column, false);
    var double := (k: nat) => Sum((l: nat) => f(k, l), n);
    forall k: nat | k < m
      ensures Congruent(term(k), double(k))
    {
      RightTerm(At(a, row * m + k), b, c, m, n, q, k, column, f);
    }
    CongruentSum(term, double, m);
  }

  lemma RightTerm(x: U16, b: seq<U16>, c: seq<U16>, m: nat, n: nat, q: nat, k: nat, column: nat, f: (nat, nat) -> int)
    requires k < m && column < q
    requires forall l: nat :: f(k, l) == x * At(b, k * n + l) * At(c, l * q + column)
    ensures Congruent(x * At(Product(b, c, m, q, n, false), k * q + column), Sum((l: nat) => f(k, l), n))
  {
    var entry := At(Product(b, c, m, q, n, false), k * q + column);
    var dot := Dot(b, c, n, q, k, column, n, false);
    ProductEntry(b, c, m, q, n, k, column);
    CongruentProduct(x, x, entry, dot);
    SumScaled(Term(b, c, n, q, k, column, false), x, n);
    AssociateTerms(x, b, c, n, q, k, column, f);
    assert x * dot == dot * x;
  }

  lemma AssociateTerms(x: U16, b: seq<U16>, c: seq<U16>, n: nat, q: nat, k: nat, column: nat, f: (nat, nat) -> int)
    requires forall l: nat :: f(k, l) == x * At(b, k * n + l) * At(c, l * q + column)
    ensures Sum((l: nat) => f(k, l), n) == Sum((l: nat) => Term(b, c, n, q, k, column, false)(l) * x, n)
  {
    var term := Term(b, c, n, q, k, column, false);
    forall l: nat
      ensures f(k, l) == term(l) * x
    {
      var y, z := At(b, k * n + l), At(c, l * q + column);
      assert x * y * z == (y * z) * x;
    }
    SumEqual((l: nat) => f(k, l), (l: nat) => term(l) * x, n);
  }

  /** Truncating GEMM is associative: (AB)C == A(BC) for A of p x m, B of m x n and C of n x q, in
      either signedness. */
  lemma GemmAssociative(a: seq<U16>, b: seq<U16>, c: seq<U16>, p: nat, m: nat, n: nat, q: nat, signedMode: bool)
    ensures Product(Product(a, b, p, n, m, signedMode), c, p, q, n, signedMode)
         == Product(a, Product(b, c, m, q, n, signedMode), p, q, m, signedMode)
  {
    SignednessIrrelevantGemm(a, b, p, n, m);
    SignednessIrrelevantGemm(b, c, m, q, n);
    SignednessIrrelevantGemm(Product(a, b, p, n, m, false), c, p, q, n);
    SignednessIrrelevantGemm(a, Product(b, c, m, q, n, false), p, q, m);
    var ab, bc := Product(a, b, p, n, m, false), Product(b, c, m, q, n, false);
    var f, g := Outputs(ab, c, q, n, false, false), Outputs(a, bc, q, m, false, false);
    forall row: nat, column: nat | row < p && column < q
      ensures f(row, column) == g(row, column)
    {
      EntryAssociative(a, b, c, p, m, n, q, row, column);
    }
    MatricesEqual(f, g, p, q);
  }

  lemma EntryAssociative(a: seq<U16>, b: seq<U16>, c: seq<U16>, p: nat, m: nat, n: nat, q: nat, row: nat, column: nat)
    requires row < p && column < q
    ensures Output(Product(a, b, p, n, m, false), c, n, q, row, column, false, false)
         == Output(a, Product(b, c, m, q, n, false), m, q, row, column, false, false)
  {
    LeftEntry(a, b, c, p, m, n, q, row, column);
    RightEntry(a, b, c, m, n, q, row, column);
    SumSwap(TripleTerm(a, b, c, m, n, q, row, column), m, n);
    DotNonnegative(Product(a, b, p, n, m, false), c, n, q, row, column, n);
    DotNonnegative(a, Product(b, c, m, q, n, false), m, q, row, column, m);
  }
}

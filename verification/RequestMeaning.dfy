/** What each submission entry point promises to compute, in terms of its own arguments. */
module RequestMeaning {
  import opened Words
  import opened Soc
  import opened Tasks
  import opened VectorModel
  import opened ReductionModel
  import opened GemmModel
  import opened MemoryModel
  import opened ByteOrder
  import opened Sums
  import opened Matrices

  /** The little-endian elements at an address. */
  function Elements(m: Memory, address: nat, n: nat): (elements: seq<U16>)
    ensures |elements| == n
  {
    Decode(ReadBytes(m, address, 2 * n), n)
  }

  /** The bytes a request asks to be left at its destination. */
  function Expected(r: Request, m: Memory): seq<Byte>
    requires WorkloadOf(r).Success?
  {
    match r
    case CopyRequest(source, _, lengthBytes, _) => ReadBytes(m, source, lengthBytes)
    case VectorAddRequest(source0, source1, _, length, _, signedMode, saturate) =>
      Encode(VectorSpec(CMD_OP_VECTOR_ADD, Elements(m, source0, length), Elements(m, source1, length), 0,
                        signedMode, saturate))
    case ReluOrClampRequest(source0, source1, _, length, clamp, _, signedMode) =>
      if clamp then
        Encode(VectorSpec(CMD_OP_VECTOR_CLAMP, Elements(m, source0, length), Elements(m, source1, length), 0,
                          signedMode, false))
      else
        Encode(VectorSpec(CMD_OP_VECTOR_RELU, Elements(m, source0, length), [], 0, signedMode, false))
    case ReduceSumRequest(source, _, length, _, signedMode, saturate) =>
      Encode([ReductionSpec(CMD_OP_REDUCE_SUM, Elements(m, source, length), signedMode, saturate)])
    case ReduceMaxRequest(source, _, length, _, signedMode) =>
      Encode([Greatest(Elements(m, source, length), signedMode)])
    case GemmRequest(source0, source1, _, rows, columns, inner, _, signedMode, saturate) =>
      Encode(GemmSpec(Elements(m, source0, rows * inner), Elements(m, source1, inner * columns), rows, columns, inner,
                      signedMode, saturate))
  }

  lemma StagedMeaning(r: Request, m: Memory)
    requires WorkloadOf(r).Success? && !r.CopyRequest? && !r.ReluOrClampRequest?
    ensures Reference(WorkloadOf(r).value, m) == Expected(r, m)
  {
    AcceptedCounts(WorkloadOf(r).value);
  }

  lemma ReluMeaning(r: Request, m: Memory)
    requires WorkloadOf(r).Success? && r.ReluOrClampRequest?
    ensures Reference(WorkloadOf(r).value, m) == Expected(r, m)
  {
    var w := WorkloadOf(r).value;
    AcceptedCounts(w);
    assert Saturates(w.opcode, true) == Saturates(w.opcode, false);
    if !r.clamp {
      assert Decode(ReadBytes(m, w.source1, 0), 0) == [];
    }
  }

  /** The workload recorded for a request computes what the request asks for, where it asks for it. */
  lemma RequestMeansReference(r: Request, m: Memory)
    requires WorkloadOf(r).Success?
    ensures Reference(WorkloadOf(r).value, m) == Expected(r, m)
    ensures WorkloadOf(r).value.destination == r.destination
  {
    match r
    case CopyRequest(_, _, _, _) =>
    case ReluOrClampRequest(_, _, _, _, _, _, _) => ReluMeaning(r, m);
    case _ => StagedMeaning(r, m);
  }

  // ---- In plain integers ----

  predicate ByteCopied(source: nat, destination: nat, m0: Memory, m: Memory, k: nat) {
    m(destination + k) == m0(source + k)
  }

  /** Element `k` at the destination is that of the operation on elements `k` at the sources. */
  predicate ElementComputed(opcode: U32, source0: nat, source1: nat, destination: nat, signedMode: bool, saturate: bool,
                            m0: Memory, m: Memory, k: nat)
  {
    Yields(opcode, Value(ElementAt(m0, source0 + 2 * k), signedMode), Value(ElementAt(m0, source1 + 2 * k), signedMode),
           ElementAt(m, destination + 2 * k), signedMode, saturate)
  }

  ghost predicate ElementsComputed(opcode: U32, source0: nat, source1: nat, destination: nat, n: nat, signedMode: bool,
                                   saturate: bool, m0: Memory, m: Memory)
  {
    forall k: nat :: k < n ==>
      ElementComputed(opcode, source0, source1, destination, signedMode, saturate, m0, m, k)
  }

  predicate IsElement(m: Memory, source: nat, k: nat, z: U16) {
    ElementAt(m, source + 2 * k) == z
  }

  predicate IsAtMost(m: Memory, source: nat, k: nat, z: U16, signedMode: bool) {
    Value(ElementAt(m, source + 2 * k), signedMode) <= Value(z, signedMode)
  }

  /** The products of elements (row, k) and (k, column) of two row-major matrices in memory, by k. */
  function ProductsAt(source0: nat, source1: nat, columns: nat, inner: nat, signedMode: bool, m0: Memory, row: nat,
                      column: nat)
    : nat -> int
  {
    (k: nat) => Value(ElementAt(m0, source0 + 2 * (row * inner + k)), signedMode)
                * Value(ElementAt(m0, source1 + 2 * (k * columns + column)), signedMode)
  }

  /** Entry (row, column) at the destination is the dot product of a row of the one and a column of the other. */
  predicate EntryComputed(source0: nat, source1: nat, destination: nat, columns: nat, inner: nat, signedMode: bool,
                          saturate: bool, m0: Memory, m: Memory, row: nat, column: nat)
  {
    Represents(ElementAt(m, destination + 2 * (row * columns + column)),
               Sum(ProductsAt(source0, source1, columns, inner, signedMode, m0, row, column), inner),
               signedMode, saturate)
  }

  /** The destination in memory `m` holds what the request asks for, its sources being those in `m0`: byte by byte
      for a copy, and otherwise element by element, each the lower byte first. */
  ghost predicate Fulfilled(r: Request, m0: Memory, m: Memory) {
    match r
    case CopyRequest(source, destination, n, _) =>
      forall k: nat :: k < n ==> ByteCopied(source, destination, m0, m, k)
    case VectorAddRequest(source0, source1, destination, n, _, signedMode, saturate) =>
      ElementsComputed(CMD_OP_VECTOR_ADD, source0, source1, destination, n, signedMode, saturate, m0, m)
    case ReluOrClampRequest(source0, source1, destination, n, clamp, _, signedMode) =>
      ElementsComputed(if clamp then CMD_OP_VECTOR_CLAMP else CMD_OP_VECTOR_RELU, source0, source1, destination, n,
                       signedMode, false, m0, m)
    case ReduceSumRequest(source, destination, n, _, signedMode, saturate) =>
      Represents(ElementAt(m, destination), Sum((k: nat) => Value(ElementAt(m0, source + 2 * k), signedMode), n),
                 signedMode, saturate)
    case ReduceMaxRequest(source, destination, n, _, signedMode) =>
      && (exists k: nat :: k < n && IsElement(m0, source, k, ElementAt(m, destination)))
      && (forall k: nat :: k < n ==> IsAtMost(m0, source, k, ElementAt(m, destination), signedMode))
    case GemmRequest(source0, source1, destination, rows, columns, inner, _, signedMode, saturate) =>
      forall row: nat, column: nat :: row < rows && column < columns ==>
        EntryComputed(source0, source1, destination, columns, inner, signedMode, saturate, m0, m, row, column)
  }

  lemma CopyFulfilled(r: Request, m0: Memory, m: Memory)
    requires r.CopyRequest? && ReadBytes(m, r.destination, r.lengthBytes) == ReadBytes(m0, r.source, r.lengthBytes)
    ensures Fulfilled(r, m0, m)
  {
    forall k: nat | k < r.lengthBytes
      ensures ByteCopied(r.source, r.destination, m0, m, k)
    {
      assert ReadBytes(m, r.destination, r.lengthBytes)[k] == ReadBytes(m0, r.source, r.lengthBytes)[k];
    }
  }

  lemma VectorComputed(opcode: U32, source0: nat, source1: nat, right: seq<U16>, destination: nat, n: nat,
                       signedMode: bool, saturate: bool, m0: Memory, m: Memory, k: nat)
    requires opcode == CMD_OP_VECTOR_ADD || opcode == CMD_OP_VECTOR_CLAMP || opcode == CMD_OP_VECTOR_RELU
    requires opcode != CMD_OP_VECTOR_RELU ==> right == Elements(m0, source1, n)
    requires ReadBytes(m, destination, 2 * n)
          == Encode(VectorSpec(opcode, Elements(m0, source0, n), right, 0, signedMode, saturate))
    requires k < n
    ensures ElementComputed(opcode, source0, source1, destination, signedMode, saturate, m0, m, k)
  {
    var left := Elements(m0, source0, n);
    VectorMeaning(opcode, left, right, 0, k, signedMode, saturate);
    EncodedElement(m, destination, VectorSpec(opcode, left, right, 0, signedMode, saturate), k);
    DecodedElement(m0, source0, n, k);
    DecodedElement(m0, source1, n, k);
  }

  lemma SumComputed(source: nat, destination: nat, n: nat, elements: seq<U16>, signedMode: bool, saturate: bool,
                    m0: Memory, m: Memory)
    requires n != 0 && elements == Elements(m0, source, n)
    requires ReadBytes(m, destination, 2)
          == Encode([ReductionSpec(CMD_OP_REDUCE_SUM, elements, signedMode, saturate)])
    ensures Represents(ElementAt(m, destination), Sum((k: nat) => Value(ElementAt(m0, source + 2 * k), signedMode), n),
                       signedMode, saturate)
  {
    EncodedElement(m, destination, [ReductionSpec(CMD_OP_REDUCE_SUM, elements, signedMode, saturate)], 0);
    SumIsRepresented(elements, signedMode, saturate);
    ValuesAreRead(source, n, elements, signedMode, m0);
  }

  lemma ValuesAreRead(source: nat, n: nat, elements: seq<U16>, signedMode: bool, m0: Memory)
    requires elements == Elements(m0, source, n)
    ensures Sum(Values(elements, signedMode), n) == Sum((k: nat) => Value(ElementAt(m0, source + 2 * k), signedMode), n)
  {
    var f, g := Values(elements, signedMode), (k: nat) => Value(ElementAt(m0, source + 2 * k), signedMode);
    forall k: nat | k < n
      ensures f(k) == g(k)
    {
      DecodedElement(m0, source, n, k);
    }
    SumEqual(f, g, n);
  }

  lemma MaxComputed(source: nat, destination: nat, n: nat, elements: seq<U16>, z: U16, signedMode: bool,
                    m0: Memory, m: Memory)
    requires elements == Elements(m0, source, n) && IsGreatest(z, elements, signedMode)
    requires ReadBytes(m, destination, 2) == Encode([z])
    ensures exists k: nat :: k < n && IsElement(m0, source, k, ElementAt(m, destination))
    ensures forall k: nat :: k < n ==> IsAtMost(m0, source, k, ElementAt(m, destination), signedMode)
  {
    EncodedElement(m, destination, [z], 0);
    var i: nat :| i < n && elements[i] == z;
    DecodedElement(m0, source, n, i);
    assert IsElement(m0, source, i, ElementAt(m, destination));
    forall k: nat | k < n
      ensures IsAtMost(m0, source, k, ElementAt(m, destination), signedMode)
    {
      DecodedElement(m0, source, n, k);
    }
  }

  /** An entry at its place with terms as they are in memory. */
  lemma EntryCarried(source0: nat, source1: nat, destination: nat, a: seq<U16>, b: seq<U16>, columns: nat, inner: nat,
                     product: seq<U16>, signedMode: bool, saturate: bool, m0: Memory, m: Memory, row: nat, column: nat)
    requires ElementAt(m, destination + 2 * (row * columns + column)) == At(product, row * columns + column)
    requires Sum(Products(a, b, columns, inner, row, column, signedMode), inner)
          == Sum(ProductsAt(source0, source1, columns, inner, signedMode, m0, row, column), inner)
    requires EntryMeaning(a, b, columns, inner, row, column, product, signedMode, saturate)
    ensures EntryComputed(source0, source1, destination, columns, inner, signedMode, saturate, m0, m, row, column)
  {
  }

  lemma ProductComputed(source0: nat, source1: nat, destination: nat, a: seq<U16>, b: seq<U16>, rows: nat, columns: nat,
                        inner: nat, product: seq<U16>, signedMode: bool, saturate: bool, m0: Memory, m: Memory)
    requires |a| == rows * inner && |b| == inner * columns
    requires a == Elements(m0, source0, |a|) && b == Elements(m0, source1, |b|)
    requires ReadBytes(m, destination, 2 * |product|) == Encode(product)
    requires ProductMeaning(a, b, rows, columns, inner, product, signedMode, saturate)
    ensures forall row: nat, column: nat :: row < rows && column < columns ==>
      EntryComputed(source0, source1, destination, columns, inner, signedMode, saturate, m0, m, row, column)
  {
    forall row: nat, column: nat | row < rows && column < columns
      ensures EntryComputed(source0, source1, destination, columns, inner, signedMode, saturate, m0, m, row, column)
    {
      InsideMatrix(row, rows, column, columns);
      ElementWritten(m, destination, product, row * columns + column);
      TermsAreRead(source0, source1, a, b, rows, columns, inner, signedMode, m0, row, column);
      EntryCarried(source0, source1, destination, a, b, columns, inner, product, signedMode, saturate, m0, m, row,
                   column);
    }
  }

  lemma ElementWritten(m: Memory, destination: nat, elements: seq<U16>, i: nat)
    requires i < |elements| && ReadBytes(m, destination, 2 * |elements|) == Encode(elements)
    ensures ElementAt(m, destination + 2 * i) == At(elements, i)
  {
    EncodedElement(m, destination, elements, i);
  }

  lemma TermsAreRead(source0: nat, source1: nat, a: seq<U16>, b: seq<U16>, rows: nat, columns: nat, inner: nat,
                     signedMode: bool, m0: Memory, row: nat, column: nat)
    requires row < rows && column < columns && |a| == rows * inner && |b| == inner * columns
    requires a == Elements(m0, source0, |a|) && b == Elements(m0, source1, |b|)
    ensures Sum(Products(a, b, columns, inner, row, column, signedMode), inner)
         == Sum(ProductsAt(source0, source1, columns, inner, signedMode, m0, row, column), inner)
  {
    var f := Products(a, b, columns, inner, row, column, signedMode);
    var g := ProductsAt(source0, source1, columns, inner, signedMode, m0, row, column);
    forall k: nat | k < inner
      ensures f(k) == g(k)
    {
      InsideMatrix(row, rows, k, inner);
      InsideMatrix(k, inner, column, columns);
      TermIsRead(source0, source1, a, b, columns, inner, signedMode, m0, row, column, k);
    }
    SumEqual(f, g, inner);
  }

  lemma TermIsRead(source0: nat, source1: nat, a: seq<U16>, b: seq<U16>, columns: nat, inner: nat, signedMode: bool,
                   m0: Memory, row: nat, column: nat, k: nat)
    requires row * inner + k < |a| && k * columns + column < |b|
    requires a == Elements(m0, source0, |a|) && b == Elements(m0, source1, |b|)
    ensures Products(a, b, columns, inner, row, column, signedMode)(k)
         == ProductsAt(source0, source1, columns, inner, signedMode, m0, row, column)(k)
  {
    ElementRead(m0, source0, a, row * inner + k);
    ElementRead(m0, source1, b, k * columns + column);
  }

  lemma ElementRead(m: Memory, source: nat, elements: seq<U16>, i: nat)
    requires i < |elements| && elements == Elements(m, source, |elements|)
    ensures At(elements, i) == ElementAt(m, source + 2 * i)
  {
    DecodedElement(m, source, |elements|, i);
  }

  /** A destination that holds the expected bytes fulfils the request. */
  lemma ExpectedFulfils(r: Request, m0: Memory, m: Memory)
    requires WorkloadOf(r).Success? && ReadBytes(m, r.destination, |Expected(r, m0)|) == Expected(r, m0)
    ensures Fulfilled(r, m0, m)
  {
    match r
    case CopyRequest(_, _, _, _) => CopyFulfilled(r, m0, m);
    case VectorAddRequest(source0, source1, destination, n, _, signedMode, saturate) =>
      forall k: nat | k < n
        ensures ElementComputed(CMD_OP_VECTOR_ADD, source0, source1, destination, signedMode, saturate, m0, m, k)
      {
        VectorComputed(CMD_OP_VECTOR_ADD, source0, source1, Elements(m0, source1, n), destination, n, signedMode,
                       saturate, m0, m, k);
      }
    case ReluOrClampRequest(source0, source1, destination, n, clamp, _, signedMode) =>
      var opcode := if clamp then CMD_OP_VECTOR_CLAMP else CMD_OP_VECTOR_RELU;
      var right := if clamp then Elements(m0, source1, n) else [];
      forall k: nat | k < n
        ensures ElementComputed(opcode, source0, source1, destination, signedMode, false, m0, m, k)
      {
        VectorComputed(opcode, source0, source1, right, destination, n, signedMode, false, m0, m, k);
      }
    case ReduceSumRequest(source, destination, n, _, signedMode, saturate) =>
      SumComputed(source, destination, n, Elements(m0, source, n), signedMode, saturate, m0, m);
    case ReduceMaxRequest(source, destination, n, _, signedMode) =>
      var elements := Elements(m0, source, n);
      MaxComputed(source, destination, n, elements, Greatest(elements, signedMode), signedMode, m0, m);
    case GemmRequest(source0, source1, destination, rows, columns, inner, _, signedMode, saturate) =>
      var a, b := Elements(m0, source0, rows * inner), Elements(m0, source1, inner * columns);
      GemmMeaning(a, b, rows, columns, inner, signedMode, saturate);
      ProductComputed(source0, source1, destination, a, b, rows, columns, inner,
                      GemmSpec(a, b, rows, columns, inner, signedMode, saturate), signedMode, saturate, m0, m);
  }
}

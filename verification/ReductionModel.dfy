/** The reference model of the reduction accelerator. */
module ReductionModel {
  import opened Words
  import opened Soc
  import opened Sums
  import opened VectorModel
  import opened Accumulators

  /** The exact sum of the elements. */
  function Total(source: seq<U16>, signedMode: bool): (v: int)
    ensures !signedMode ==> v >= 0
    decreases |source|
  {
    if |source| == 0 then 0
    else Total(source[..|source| - 1], signedMode) + Value(source[|source| - 1], signedMode)
  }

  /** The values of the elements, by position. */
  function Values(source: seq<U16>, signedMode: bool): nat -> int {
    (k: nat) => if k < |source| then Value(source[k], signedMode) else 0
  }

  lemma {:induction false} TotalIsSum(source: seq<U16>, signedMode: bool)
    ensures Total(source, signedMode) == Sum(Values(source, signedMode), |source|)
    decreases |source|
  {
    if |source| != 0 {
      var n := |source| - 1;
      TotalIsSum(source[..n], signedMode);
      SumEqual(Values(source[..n], signedMode), Values(source, signedMode), n);
    }
  }

  lemma {:induction false} TotalBounds(source: seq<U16>, signedMode: bool)
    ensures Lowest(signedMode) * |source| <= Total(source, signedMode) <= Highest(signedMode) * |source|
    decreases |source|
  {
    if |source| != 0 {
      TotalBounds(source[..|source| - 1], signedMode);
    }
  }

  /** The largest number of elements whose sum fits in a 64-bit accumulator whatever the data. */
  function MaxAddends(signedMode: bool): nat {
    if signedMode then 0x1_0000_0000_0000 else 0x1_0001_0001_0001
  }

  /** The sum of a 64-bit accumulator, converted once. */
  function WrappedSum(source: seq<U16>, signedMode: bool, saturate: bool): U16 {
    Convert(Wrap(Total(source, signedMode), signedMode), signedMode, saturate)
  }

  /** It is the exact sum: always when truncating, and up to the largest number of elements when saturating. */
  lemma WrappedSumIsExact(source: seq<U16>, signedMode: bool, saturate: bool)
    requires saturate ==> |source| <= MaxAddends(signedMode)
    ensures WrappedSum(source, signedMode, saturate) == Convert(Total(source, signedMode), signedMode, saturate)
  {
    TotalBounds(source, signedMode);
    ConvertWrapped(Total(source, signedMode), signedMode, saturate);
  }

  /** All saturating sums of this many elements are exact. */
  ghost predicate AlwaysExact(length: nat, signedMode: bool) {
    forall source: seq<U16> :: |source| == length ==>
      WrappedSum(source, signedMode, true) == Convert(Total(source, signedMode), signedMode, true)
  }

  /** Elements that fill the accumulator, then one that is too much. */
  function OverflowingElement(k: nat, signedMode: bool): U16 {
    if k < MaxAddends(signedMode) then (if signedMode then 0x8000 else 0xFFFF)
    else if k == MaxAddends(signedMode) then (if signedMode then 0x8000 else 1)
    else 0
  }

  function Overflowing(length: nat, signedMode: bool): seq<U16> {
    seq(length, k requires 0 <= k < length => OverflowingElement(k, signedMode))
  }

  /** Their values, which add up to -2^63 - 2^15 when signed and to 2^64 when not. */
  function OverflowingValues(signedMode: bool): nat -> int {
    if signedMode then Steps(MaxAddends(true), -0x8000, -0x8000) else Steps(MaxAddends(false), 0xFFFF, 1)
  }

  lemma {:induction false} OverflowingTotal(length: nat, signedMode: bool)
    ensures Total(Overflowing(length, signedMode), signedMode) == Sum(OverflowingValues(signedMode), length)
  {
    if length != 0 {
      OverflowingTotal(length - 1, signedMode);
      assert Overflowing(length, signedMode)[..length - 1] == Overflowing(length - 1, signedMode);
    }
  }

  /** The exact limit of saturating sums: up to it every sum is exact, above it some sum of every length is not. */
  lemma SaturatingLimit(length: nat, signedMode: bool)
    ensures AlwaysExact(length, signedMode) <==> length <= MaxAddends(signedMode)
  {
    if length <= MaxAddends(signedMode) {
      forall source: seq<U16> | |source| == length
        ensures WrappedSum(source, signedMode, true) == Convert(Total(source, signedMode), signedMode, true)
      {
        WrappedSumIsExact(source, signedMode, true);
      }
    } else {
      var source := Overflowing(length, signedMode);
      OverflowingTotal(length, signedMode);
      if signedMode {
        SumSteps(MaxAddends(true), -0x8000, -0x8000, length);
      } else {
        SumSteps(MaxAddends(false), 0xFFFF, 1, length);
      }
      assert WrappedSum(source, signedMode, true) != Convert(Total(source, signedMode), signedMode, true);
    }
  }

  /** Element `m` is the greatest element of the sequence. */
  predicate IsGreatest(m: U16, source: seq<U16>, signedMode: bool) {
    m in source && forall k :: 0 <= k < |source| ==> Value(source[k], signedMode) <= Value(m, signedMode)
  }

  lemma GreatestIsUnique(m: U16, n: U16, source: seq<U16>, signedMode: bool)
    requires IsGreatest(m, source, signedMode) && IsGreatest(n, source, signedMode)
    ensures m == n
  {
  }

  /** The greatest element of a nonempty sequence. */
  function Greatest(source: seq<U16>, signedMode: bool): (m: U16)
    requires |source| != 0
    ensures IsGreatest(m, source, signedMode)
    decreases |source|
  {
    var last := source[|source| - 1];
    if |source| == 1 then last
    else
      var m := Greatest(source[..|source| - 1], signedMode);
      if Value(m, signedMode) < Value(last, signedMode) then last else m
  }

  function ReductionSpec(opcode: U32, source: seq<U16>, signedMode: bool, saturate: bool): U16
    requires |source| != 0 && (opcode == CMD_OP_REDUCE_SUM || opcode == CMD_OP_REDUCE_MAX)
  {
    if opcode == CMD_OP_REDUCE_SUM then Convert(Total(source, signedMode), signedMode, saturate)
    else Greatest(source, signedMode)
  }

  lemma SumIsRepresented(source: seq<U16>, signedMode: bool, saturate: bool)
    ensures Represents(Convert(Total(source, signedMode), signedMode, saturate),
                       Sum(Values(source, signedMode), |source|), signedMode, saturate)
  {
    TotalIsSum(source, signedMode);
    ConvertRepresents(Total(source, signedMode), signedMode, saturate);
  }

  method AccumulateTotal(source: seq<U16>, signedMode: bool) returns (sum: int)
    ensures sum == Wrap(Total(source, signedMode), signedMode)
  {
    sum := 0;
    for i := 0 to |source|
      invariant sum == Wrap(Total(source[..i], signedMode), signedMode)
    {
      assert source[..i + 1][..i] == source[..i];
      WrapStep(Total(source[..i], signedMode), Value(source[i], signedMode), signedMode);
      sum := Wrap(sum + Value(source[i], signedMode), signedMode);
    }
    assert source[..|source|] == source;
  }

  /** The signed maximum: a 32-bit running maximum started at the least 32-bit integer. */
  method SignedMaximum(source: seq<U16>) returns (maximum: int)
    requires |source| != 0
    ensures maximum == SignedElement(Greatest(source, true))
  {
    maximum := -0x8000_0000;
    for i := 0 to |source|
      invariant i == 0 ==> maximum == -0x8000_0000
      invariant i != 0 ==> maximum == SignedElement(Greatest(source[..i], true))
    {
      assert source[..i + 1][..i] == source[..i];
      var v := SignedElement(source[i]);
      if maximum < v {
        maximum := v;
      }
    }
    assert source[..|source|] == source;
  }

  /** The unsigned maximum: the first greatest element. */
  method UnsignedMaximum(source: seq<U16>) returns (maximum: U16)
    requires |source| != 0
    ensures maximum == Greatest(source, false)
  {
    var largest := 0;
    for i := 1 to |source|
      invariant 0 <= largest < i
      invariant forall k :: 0 <= k < i ==> source[k] <= source[largest]
    {
      if source[largest] < source[i] {
        largest := i;
      }
    }
    maximum := source[largest];
    assert IsGreatest(maximum, source, false);
    GreatestIsUnique(maximum, Greatest(source, false), source, false);
  }

  /** `reduction_operation`: an empty source or an unknown opcode is an error; a sum is that of a 64-bit
      accumulator, converted once, and exact up to the limit; a maximum is the greatest element whatever the
      saturate flag says. */
  method ReductionOperation(opcode: U32, source: seq<U16>, signedMode: bool, saturate: bool)
    returns (r: Result<U16, ModelError>)
    ensures r.Success? <==> |source| != 0 && (opcode == CMD_OP_REDUCE_SUM || opcode == CMD_OP_REDUCE_MAX)
    ensures r.Success? && opcode == CMD_OP_REDUCE_SUM ==> r.value == WrappedSum(source, signedMode, saturate)
    ensures r.Success? && (opcode == CMD_OP_REDUCE_MAX || !saturate || |source| <= MaxAddends(signedMode)) ==>
      r.value == ReductionSpec(opcode, source, signedMode, saturate)
    ensures r.Success? && opcode == CMD_OP_REDUCE_SUM && (!saturate || |source| <= MaxAddends(signedMode)) ==>
      Represents(r.value, Sum(Values(source, signedMode), |source|), signedMode, saturate)
    ensures r.Success? && opcode == CMD_OP_REDUCE_MAX ==> IsGreatest(r.value, source, signedMode)
    ensures r.Failure? ==> r.error == InvalidArgument
  {
    if |source| == 0 {
      return Failure(InvalidArgument);
    }
    if opcode == CMD_OP_REDUCE_SUM {
      var sum := AccumulateTotal(source, signedMode);
      if !saturate || |source| <= MaxAddends(signedMode) {
        WrappedSumIsExact(source, signedMode, saturate);
        SumIsRepresented(source, signedMode, saturate);
      }
      return Success(Convert(sum, signedMode, saturate));
    }
    if opcode == CMD_OP_REDUCE_MAX {
      if signedMode {
        var maximum := SignedMaximum(source);
        ConvertValue(Greatest(source, true), true, false);
        return Success(SignedResult(maximum, false));
      }
      var maximum := UnsignedMaximum(source);
      return Success(maximum);
    }
    return Failure(InvalidArgument);
  }

  // ---- Any reduction tree gives the same result ----

  /** A reduction tree over nonempty chunks of elements, such as the words of a memory. */
  datatype Tree = Leaf(chunk: seq<U16>) | Node(left: Tree, right: Tree)

  predicate Nonempty(t: Tree) {
    match t
    case Leaf(chunk) => |chunk| != 0
    case Node(l, r) => Nonempty(l) && Nonempty(r)
  }

  function Flatten(t: Tree): (source: seq<U16>)
    ensures Nonempty(t) ==> |source| != 0
  {
    match t
    case Leaf(chunk) => chunk
    case Node(l, r) => Flatten(l) + Flatten(r)
  }

  /** Partial sums combined up the tree in a wide accumulator. */
  function TreeTotal(t: Tree, signedMode: bool): int {
    match t
    case Leaf(chunk) => Total(chunk, signedMode)
    case Node(l, r) => TreeTotal(l, signedMode) + TreeTotal(r, signedMode)
  }

  /** Partial sums combined up the tree in 64-bit accumulators. */
  function TreeAccumulator(t: Tree, signedMode: bool): (v: int)
    ensures !signedMode ==> v >= 0
  {
    match t
    case Leaf(chunk) => Wrap(Total(chunk, signedMode), signedMode)
    case Node(l, r) => Wrap(TreeAccumulator(l, signedMode) + TreeAccumulator(r, signedMode), signedMode)
  }

  /** Partial maxima combined up the tree. */
  function TreeGreatest(t: Tree, signedMode: bool): U16
    requires Nonempty(t)
  {
    match t
    case Leaf(chunk) => Greatest(chunk, signedMode)
    case Node(l, r) =>
      var a := TreeGreatest(l, signedMode);
      var b := TreeGreatest(r, signedMode);
      if Value(a, signedMode) < Value(b, signedMode) then b else a
  }

  lemma {:induction false} TotalSplit(a: seq<U16>, b: seq<U16>, signedMode: bool)
    ensures Total(a + b, signedMode) == Total(a, signedMode) + Total(b, signedMode)
    decreases |b|
  {
    if |b| == 0 {
      assert a + b == a;
    } else {
      var n := |b| - 1;
      TotalSplit(a, b[..n], signedMode);
      assert (a + b)[..|a + b| - 1] == a + b[..n];
    }
  }

  lemma {:induction false} TreeTotalIsTotal(t: Tree, signedMode: bool)
    ensures TreeTotal(t, signedMode) == Total(Flatten(t), signedMode)
  {
    match t
    case Leaf(_) =>
    case Node(l, r) =>
      TreeTotalIsTotal(l, signedMode);
      TreeTotalIsTotal(r, signedMode);
      TotalSplit(Flatten(l), Flatten(r), signedMode);
  }

  lemma {:induction false} TreeAccumulatorWraps(t: Tree, signedMode: bool)
    ensures TreeAccumulator(t, signedMode) == Wrap(Total(Flatten(t), signedMode), signedMode)
  {
    match t
    case Leaf(_) =>
    case Node(l, r) =>
      TreeAccumulatorWraps(l, signedMode);
      TreeAccumulatorWraps(r, signedMode);
      WrapBoth(Total(Flatten(l), signedMode), Total(Flatten(r), signedMode), signedMode);
      TotalSplit(Flatten(l), Flatten(r), signedMode);
  }

  lemma WrapBoth(x: int, y: int, signedMode: bool)
    ensures Wrap(Wrap(x, signedMode) + Wrap(y, signedMode), signedMode) == Wrap(x + y, signedMode)
  {
    WrapStep(x, Wrap(y, signedMode), signedMode);
    WrapStep(y, x, signedMode);
  }

  lemma {:induction false} TreeGreatestIsGreatest(t: Tree, signedMode: bool)
    requires Nonempty(t)
    ensures IsGreatest(TreeGreatest(t, signedMode), Flatten(t), signedMode)
  {
    match t
    case Leaf(_) =>
    case Node(l, r) =>
      TreeGreatestIsGreatest(l, signedMode);
      TreeGreatestIsGreatest(r, signedMode);
  }

  /** Reduction does not depend on the shape. Whatever the size of the input, combining partial results in
      64-bit accumulators over any tree and converting once gives the result of the loop over the whole
      input; combining exact partial results gives the exact one. */
  lemma ReductionShapeIndependent(t: Tree, signedMode: bool, saturate: bool)
    requires Nonempty(t)
    ensures Convert(TreeAccumulator(t, signedMode), signedMode, saturate)
         == WrappedSum(Flatten(t), signedMode, saturate)
    ensures signedMode || TreeTotal(t, signedMode) >= 0
    ensures Convert(TreeTotal(t, signedMode), signedMode, saturate)
         == ReductionSpec(CMD_OP_REDUCE_SUM, Flatten(t), signedMode, saturate)
    ensures TreeGreatest(t, signedMode) == ReductionSpec(CMD_OP_REDUCE_MAX, Flatten(t), signedMode, saturate)
  {
    TreeAccumulatorWraps(t, signedMode);
    TreeTotalIsTotal(t, signedMode);
    TreeGreatestIsGreatest(t, signedMode);
    GreatestIsUnique(TreeGreatest(t, signedMode), Greatest(Flatten(t), signedMode), Flatten(t), signedMode);
  }
}

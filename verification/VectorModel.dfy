/** The reference model of the vector accelerator: 16-bit elements, wide intermediate values, one final
    conversion. */
module VectorModel {
  import opened Words
  import opened Soc

  datatype ModelError = InvalidArgument | OutOfRange

  /** The value of an element: two's complement when signed. */
  function SignedElement(value: U16): (v: int)
    ensures -0x8000 <= v < 0x8000
    ensures v % TWO16 == value
  {
    if value < 0x8000 then value else value - TWO16
  }

  function Value(x: U16, signedMode: bool): (v: int)
    ensures v % TWO16 == x
    ensures if signedMode then -0x8000 <= v < 0x8000 else 0 <= v < TWO16
  {
    if signedMode then SignedElement(x) else x
  }

  function Clamp(v: int, low: int, high: int): int {
    if v < low then low else if high < v then high else v
  }

  function Lowest(signedMode: bool): int {
    if signedMode then -0x8000 else 0
  }

  function Highest(signedMode: bool): int {
    if signedMode then 0x7FFF else 0xFFFF
  }

  /** `signed_result`: optional clamp, then the low 16 bits of the two's-complement representation. */
  function SignedResult(value: int, saturate: bool): U16 {
    (if saturate then Clamp(value, -0x8000, 0x7FFF) else value) % TWO16
  }

  /** `unsigned_result`. */
  function UnsignedResult(value: nat, saturate: bool): U16 {
    (if saturate && value > 0xFFFF then 0xFFFF else value) % TWO16
  }

  /** The conversion of a wide result: an unsigned one is never negative. */
  function Convert(value: int, signedMode: bool, saturate: bool): U16
    requires signedMode || value >= 0
  {
    if signedMode then SignedResult(value, saturate) else UnsignedResult(value, saturate)
  }

  /** A saturating conversion is the nearest representable value; a truncating one agrees modulo 2^16;
      a representable value converts to itself either way. */
  lemma ConvertMeaning(value: int, signedMode: bool, saturate: bool)
    requires signedMode || value >= 0
    ensures var r := Value(Convert(value, signedMode, saturate), signedMode);
      && (saturate ==> r == Clamp(value, Lowest(signedMode), Highest(signedMode)))
      && (!saturate ==> r % TWO16 == value % TWO16)
      && (Lowest(signedMode) <= value <= Highest(signedMode) ==> r == value)
  {
  }

  /** `z` stands for the exact value: the value itself if an element can have it, and otherwise the nearest end of
      the range when saturating, or its low 16 bits when not. */
  predicate Represents(z: U16, exact: int, signedMode: bool, saturate: bool) {
    var v := Value(z, signedMode);
    var low := if signedMode then -0x8000 else 0;
    var high := if signedMode then 0x7FFF else 0xFFFF;
    if low <= exact <= high then v == exact
    else if saturate then v == (if exact < low then low else high)
    else (v - exact) % 0x1_0000 == 0
  }

  lemma ConvertRepresents(value: int, signedMode: bool, saturate: bool)
    requires signedMode || value >= 0
    ensures Represents(Convert(value, signedMode, saturate), value, signedMode, saturate)
  {
    ConvertMeaning(value, signedMode, saturate);
  }

  /** An element survives being read and converted back. */
  lemma ConvertValue(x: U16, signedMode: bool, saturate: bool)
    ensures Convert(Value(x, signedMode), signedMode, saturate) == x
  {
  }

  predicate VectorOpcode(opcode: U32) {
    CMD_OP_VECTOR_ADD <= opcode <= CMD_OP_VECTOR_CLAMP
  }

  /** The exact integer an operation computes for one element, before conversion. */
  function ElementResult(opcode: U32, lhs: int, rhs: int, signedMode: bool): (v: int)
    requires VectorOpcode(opcode)
    requires !signedMode ==> lhs >= 0 && rhs >= 0
    ensures !signedMode ==> v >= 0
  {
    if opcode == CMD_OP_VECTOR_ADD then lhs + rhs
    else if opcode == CMD_OP_VECTOR_RELU then (if lhs < 0 then 0 else lhs)
    else if opcode == CMD_OP_VECTOR_CLAMP then (if lhs < 0 || rhs < 0 then 0 else if lhs < rhs then lhs else rhs)
    else
      assert !signedMode ==> lhs * rhs >= 0;
      lhs * rhs
  }

  /** ReLU and clamp never saturate: they are already in range. */
  function Saturates(opcode: U32, saturate: bool): bool {
    saturate && opcode != CMD_OP_VECTOR_RELU && opcode != CMD_OP_VECTOR_CLAMP
  }

  /** The exact specification of one vector element. */
  function VectorElementSpec(opcode: U32, lhs: U16, rhs: U16, signedMode: bool, saturate: bool): U16
    requires VectorOpcode(opcode)
  {
    Convert(ElementResult(opcode, Value(lhs, signedMode), Value(rhs, signedMode), signedMode),
            signedMode, Saturates(opcode, saturate))
  }

  /** What `z` is when operation `opcode` is applied to elements of values x and y: the sum or the product,
      represented; for ReLU x itself unless negative, and otherwise 0; for clamp the smaller operand unless
      one is negative, and otherwise 0. */
  predicate Yields(opcode: U32, x: int, y: int, z: U16, signedMode: bool, saturate: bool) {
    var v := Value(z, signedMode);
    && (opcode == CMD_OP_VECTOR_ADD ==> Represents(z, x + y, signedMode, saturate))
    && (opcode == CMD_OP_VECTOR_MULTIPLY || opcode == CMD_OP_VECTOR_SCALE ==>
          Represents(z, x * y, signedMode, saturate))
    && (opcode == CMD_OP_VECTOR_RELU ==> (x >= 0 ==> v == x) && (x < 0 ==> v == 0))
    && (opcode == CMD_OP_VECTOR_CLAMP ==>
          if x < 0 || y < 0 then v == 0 else v <= x && v <= y && (v == x || v == y))
  }

  lemma ElementYields(opcode: U32, lhs: U16, rhs: U16, signedMode: bool, saturate: bool)
    requires VectorOpcode(opcode)
    ensures Yields(opcode, Value(lhs, signedMode), Value(rhs, signedMode),
                   VectorElementSpec(opcode, lhs, rhs, signedMode, saturate), signedMode, saturate)
  {
    var exact := ElementResult(opcode, Value(lhs, signedMode), Value(rhs, signedMode), signedMode);
    ConvertMeaning(exact, signedMode, Saturates(opcode, saturate));
    ConvertRepresents(exact, signedMode, Saturates(opcode, saturate));
  }

  /** `vector_element`: branch by signedness and opcode; an unknown opcode is an error. */
  function VectorElement(opcode: U32, lhs: U16, rhs: U16, signedMode: bool, saturate: bool)
    : (r: Result<U16, ModelError>)
    ensures r.Success? <==> VectorOpcode(opcode)
    ensures r.Success? ==> r.value == VectorElementSpec(opcode, lhs, rhs, signedMode, saturate)
  {
    if signedMode then
      var l := SignedElement(lhs);
      var r := SignedElement(rhs);
      if opcode == CMD_OP_VECTOR_ADD then Success(SignedResult(l + r, saturate))
      else if opcode == CMD_OP_VECTOR_MULTIPLY || opcode == CMD_OP_VECTOR_SCALE then
        Success(SignedResult(l * r, saturate))
      else if opcode == CMD_OP_VECTOR_RELU then Success(SignedResult(if l < 0 then 0 else l, false))
      else if opcode == CMD_OP_VECTOR_CLAMP then
        if l < 0 || r < 0 then Success(0) else Success(SignedResult(if l < r then l else r, false))
      else Failure(InvalidArgument)
    else if opcode == CMD_OP_VECTOR_ADD then Success(UnsignedResult(lhs + rhs, saturate))
    else if opcode == CMD_OP_VECTOR_MULTIPLY || opcode == CMD_OP_VECTOR_SCALE then
      Success(UnsignedResult(lhs * rhs, saturate))
    else if opcode == CMD_OP_VECTOR_RELU then Success(lhs)
    else if opcode == CMD_OP_VECTOR_CLAMP then Success(if lhs < rhs then lhs else rhs)
    else Failure(InvalidArgument)
  }

  predicate ReadsSource1(opcode: U32) {
    opcode != CMD_OP_VECTOR_SCALE && opcode != CMD_OP_VECTOR_RELU
  }

  /** The right operand of element `i`. */
  function RightOperand(opcode: U32, source1: seq<U16>, scalar: U16, i: nat): U16
    requires ReadsSource1(opcode) ==> i < |source1|
  {
    if opcode == CMD_OP_VECTOR_SCALE then scalar else if opcode == CMD_OP_VECTOR_RELU then 0 else source1[i]
  }

  /** The elementwise result of a whole vector. */
  function VectorSpec(opcode: U32, source0: seq<U16>, source1: seq<U16>, scalar: U16,
                      signedMode: bool, saturate: bool): seq<U16>
    requires VectorOpcode(opcode) && (ReadsSource1(opcode) ==> |source0| <= |source1|)
  {
    seq(|source0|, i requires 0 <= i < |source0| =>
      VectorElementSpec(opcode, source0[i], RightOperand(opcode, source1, scalar, i), signedMode, saturate))
  }

  /** Element `i` of the result in terms of the operands: the elements at `i` of both sources for addition,
      multiplication and clamp, the scalar for scaling, the first source alone for ReLU. */
  predicate ElementMeaning(opcode: U32, source0: seq<U16>, source1: seq<U16>, scalar: U16, i: nat, z: U16,
                           signedMode: bool, saturate: bool)
    requires i < |source0|
  {
    var x := Value(source0[i], signedMode);
    && (opcode == CMD_OP_VECTOR_ADD || opcode == CMD_OP_VECTOR_MULTIPLY || opcode == CMD_OP_VECTOR_CLAMP ==>
          i < |source1| && Yields(opcode, x, Value(source1[i], signedMode), z, signedMode, saturate))
    && (opcode == CMD_OP_VECTOR_SCALE ==> Yields(opcode, x, Value(scalar, signedMode), z, signedMode, saturate))
    && (opcode == CMD_OP_VECTOR_RELU ==> Yields(opcode, x, 0, z, signedMode, saturate))
  }

  /** What each element of the specified vector is. */
  lemma VectorMeaning(opcode: U32, source0: seq<U16>, source1: seq<U16>, scalar: U16, i: nat, signedMode: bool,
                      saturate: bool)
    requires VectorOpcode(opcode) && (ReadsSource1(opcode) ==> |source0| <= |source1|) && i < |source0|
    ensures ElementMeaning(opcode, source0, source1, scalar, i,
                           VectorSpec(opcode, source0, source1, scalar, signedMode, saturate)[i], signedMode, saturate)
  {
    ElementYields(opcode, source0[i], RightOperand(opcode, source1, scalar, i), signedMode, saturate);
  }

  /** `vector_operation`: the elementwise result; a missing second operand or an unknown opcode is
      reported at the first element that meets it, so never for an empty first source. */
  method VectorOperation(opcode: U32, source0: seq<U16>, source1: seq<U16>, scalar: U16,
                         signedMode: bool, saturate: bool)
    returns (r: Result<seq<U16>, ModelError>)
    ensures r.Success? <==>
      |source0| == 0 || (VectorOpcode(opcode) && (ReadsSource1(opcode) ==> |source0| <= |source1|))
    ensures r.Success? && |source0| != 0 ==>
      r.value == VectorSpec(opcode, source0, source1, scalar, signedMode, saturate)
    ensures r.Success? && |source0| == 0 ==> r.value == []
    ensures r == Failure(InvalidArgument) <==>
      |source0| != 0 && |source1| != 0 && (opcode < CMD_OP_VECTOR_ADD || opcode > CMD_OP_VECTOR_CLAMP)
    ensures r.Success? ==> |r.value| == |source0|
    ensures r.Success? ==> forall i :: 0 <= i < |source0| ==>
      ElementMeaning(opcode, source0, source1, scalar, i, r.value[i], signedMode, saturate)
    ensures |source0| != 0 ==> (r.Success? <==>
      || opcode == CMD_OP_VECTOR_SCALE || opcode == CMD_OP_VECTOR_RELU
      || (|source0| <= |source1|
          && (opcode == CMD_OP_VECTOR_ADD || opcode == CMD_OP_VECTOR_MULTIPLY || opcode == CMD_OP_VECTOR_CLAMP)))
  {
    var result := new U16[|source0|](_ => 0);
    for index := 0 to |source0|
      invariant index != 0 ==> VectorOpcode(opcode) && (ReadsSource1(opcode) ==> index <= |source1|)
      invariant forall k :: 0 <= k < index ==>
        result[k]
          == VectorElementSpec(opcode, source0[k], RightOperand(opcode, source1, scalar, k), signedMode, saturate)
    {
      if ReadsSource1(opcode) && index >= |source1| {
        return Failure(OutOfRange);
      }
      var right := RightOperand(opcode, source1, scalar, index);
      var element := VectorElement(opcode, source0[index], right, signedMode, saturate);
      if element.Failure? {
        return Failure(element.error);
      }
      result[index] := element.value;
    }
    r := Success(result[..]);
    forall i | 0 <= i < |source0|
      ensures ElementMeaning(opcode, source0, source1, scalar, i, r.value[i], signedMode, saturate)
    {
      VectorMeaning(opcode, source0, source1, scalar, i, signedMode, saturate);
    }
  }
}

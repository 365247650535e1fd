/** Facts about accepted workloads: exact byte counts, disjoint scratchpad buffers, legal commands. */
module Layout {
  import opened Words
  import opened Soc
  import opened DeviceModel
  import opened Tasks

  /** Element counts of the two sources and of the output of a staged workload. */
  function Source0Elements(w: Workload): nat {
    if w.kind.Gemm? then w.rows * w.inner else w.length
  }

  function Source1Elements(w: Workload): nat {
    if w.kind.Gemm? then w.inner * w.columns
    else if w.kind.Vector? && w.opcode != CMD_OP_VECTOR_RELU then w.length
    else 0
  }

  function OutputElements(w: Workload): nat {
    if w.kind.Gemm? then w.rows * w.columns else if w.kind.Reduction? then 1 else w.length
  }

  predicate HasSource1(w: Workload) {
    w.kind.Gemm? || (w.kind.Vector? && w.opcode != CMD_OP_VECTOR_RELU)
  }

  lemma ProductBound(a: nat, b: nat, m: nat, n: nat)
    requires 1 <= a <= m && 1 <= b <= n
    ensures 1 <= a * b <= m * n
  {
    assert a * b <= m * b <= m * n;
    assert a * b >= 1 * b;
  }

  lemma WorkloadOfIsAccepted(r: Request)
    ensures WorkloadOf(r).Success? ==> Accepted(WorkloadOf(r).value)
  {
  }

  /** The sizes each entry point takes. */
  predicate SizesInRange(r: Request) {
    match r
    case CopyRequest(_, _, n, _) => n >= 1
    case VectorAddRequest(_, _, _, n, _, _, _) => 1 <= n <= 256
    case ReluOrClampRequest(_, _, _, n, _, _, _) => 1 <= n <= 256
    case ReduceSumRequest(_, _, n, _, _, _) => 1 <= n <= 256
    case ReduceMaxRequest(_, _, n, _, _) => 1 <= n <= 256
    case GemmRequest(_, _, _, m, n, k, _, _, _) => 1 <= m <= 8 && 1 <= n <= 8 && 1 <= k <= 8
  }

  /** A request is accepted exactly when its sizes are in range, and otherwise rejected as an invalid argument. */
  lemma AcceptsExactly(r: Request)
    ensures WorkloadOf(r).Success? <==> SizesInRange(r)
    ensures WorkloadOf(r).Failure? ==> WorkloadOf(r).error == InvalidArgument
  {
  }

  function RequestOpcode(r: Request): U32 {
    match r
    case CopyRequest(_, _, _, _) => 1
    case VectorAddRequest(_, _, _, _, _, _, _) => 2
    case ReluOrClampRequest(_, _, _, _, clamp, _, _) => if clamp then 6 else 5
    case ReduceSumRequest(_, _, _, _, _, _) => 7
    case ReduceMaxRequest(_, _, _, _, _) => 8
    case GemmRequest(_, _, _, _, _, _, _, _, _) => 9
  }

  /** The flag word asks for signed arithmetic and saturation just as given, and always for the interrupt. */
  predicate Flagged(flags: U32, signedMode: bool, saturate: bool) {
    Test(flags, 0) == signedMode && Test(flags, 1) == saturate && Test(flags, 2)
  }

  /** Every field of the workload in terms of the arguments; fields an operation does not use are zero. */
  predicate Records(r: Request, w: Workload) {
    && w.opcode == RequestOpcode(r) && w.destination == r.destination
    && (r.GemmRequest? || (w.rows == 0 && w.columns == 0 && w.inner == 0))
    && match r
       case CopyRequest(source, _, n, _) =>
         w.kind.DmaCopy? && w.source0 == source && w.source1 == 0 && w.length == n && w.flags == 0
       case VectorAddRequest(source0, source1, _, n, _, signedMode, saturate) =>
         && w.kind.Vector? && w.source0 == source0 && w.source1 == source1 && w.length == n
         && Flagged(w.flags, signedMode, saturate)
       case ReluOrClampRequest(source0, source1, _, n, _, _, signedMode) =>
         && w.kind.Vector? && w.source0 == source0 && w.source1 == source1 && w.length == n
         && Flagged(w.flags, signedMode, false)
       case ReduceSumRequest(source, _, n, _, signedMode, saturate) =>
         && w.kind.Reduction? && w.source0 == source && w.source1 == 0 && w.length == n
         && Flagged(w.flags, signedMode, saturate)
       case ReduceMaxRequest(source, _, n, _, signedMode) =>
         && w.kind.Reduction? && w.source0 == source && w.source1 == 0 && w.length == n
         && Flagged(w.flags, signedMode, false)
       case GemmRequest(source0, source1, _, m, n, k, _, signedMode, saturate) =>
         && w.kind.Gemm? && w.source0 == source0 && w.source1 == source1 && w.length == 0
         && w.rows == m && w.columns == n && w.inner == k && Flagged(w.flags, signedMode, saturate)
  }

  lemma AcceptedIsRecorded(r: Request)
    requires WorkloadOf(r).Success?
    ensures Records(r, WorkloadOf(r).value)
  {
  }

  /** The command is for the operation and the sizes that the request asks for. */
  predicate AsksFor(r: Request, c: Command) {
    match r
    case CopyRequest(_, _, _, _) => false
    case VectorAddRequest(_, _, _, n, _, _, _) => c.opcode == CMD_OP_VECTOR_ADD && c.length == n
    case ReluOrClampRequest(_, _, _, n, clamp, _, _) =>
      c.opcode == (if clamp then CMD_OP_VECTOR_CLAMP else CMD_OP_VECTOR_RELU) && c.length == n
    case ReduceSumRequest(_, _, n, _, _, _) => c.opcode == CMD_OP_REDUCE_SUM && c.length == n
    case ReduceMaxRequest(_, _, n, _, _) => c.opcode == CMD_OP_REDUCE_MAX && c.length == n
    case GemmRequest(_, _, _, m, n, k, _, _, _) =>
      c.opcode == CMD_OP_GEMM && c.rows == m && c.columns == n && c.inner == k
  }

  /** The entry points take exactly what the hardware can execute: a staged request is accepted if and only if
      some command for its operation and sizes passes the rules of the accelerators. */
  lemma AcceptedIffExecutable(r: Request)
    requires !r.CopyRequest?
    ensures WorkloadOf(r).Success? <==> exists c :: AsksFor(r, c) && CommandLegal(c)
  {
    if WorkloadOf(r).Success? {
      var w := WorkloadOf(r).value;
      var t := Task(0, r.priority, Ready, LoadSource0, w, 0, 0, None);
      AcceptedCommandIsLegal(t);
      assert AsksFor(r, MakeCommand(t).value);
    }
  }

  /** No byte count of an accepted staged workload overflows; each is twice its element count, fits
      its part of the task's slot, and the second source is empty exactly when the operation has none. */
  lemma AcceptedByteCounts(w: Workload)
    requires Accepted(w) && !w.kind.DmaCopy?
    ensures Source0Bytes(w) == Success(2 * Source0Elements(w)) && 1 <= Source0Elements(w) <= 256
    ensures Source1Bytes(w) == Success(2 * Source1Elements(w)) && Source1Elements(w) <= 256
    ensures OutputBytes(w) == Success(2 * OutputElements(w)) && 1 <= OutputElements(w) <= 256
    ensures HasSource1(w) <==> Source1Elements(w) != 0
  {
    if w.kind.Gemm? {
      ProductBound(w.rows, w.inner, 8, 8);
      ProductBound(w.inner, w.columns, 8, 8);
      ProductBound(w.rows, w.columns, 8, 8);
    }
  }

  /** A product is returned exactly when the upper half of its 64 bits is zero. */
  lemma CheckedProductExact(lhs: U32, rhs: U32)
    ensures CheckedProduct(lhs, rhs).Success? <==> lhs * rhs / 0x1_0000_0000 == 0
    ensures CheckedProduct(lhs, rhs).Success? ==> CheckedProduct(lhs, rhs).value == lhs * rhs
    ensures CheckedProduct(lhs, rhs).Failure? ==> CheckedProduct(lhs, rhs).error == OverflowError
  {
    ProductIsNat(lhs, rhs);
  }

  /** Byte counts of any workload, accepted or not: twice the element count if that fits in 32 bits, and otherwise
      the overflow exception. */
  lemma ByteCountsExact(w: Workload)
    ensures Source0Bytes(w) == CountOrOverflow(2 * Source0Elements(w))
    ensures Source1Bytes(w) == CountOrOverflow(2 * Source1Elements(w))
    ensures OutputBytes(w) == CountOrOverflow(2 * OutputElements(w))
  {
    ProductIsNat(w.rows, w.inner);
    ProductIsNat(w.inner, w.columns);
    ProductIsNat(w.rows, w.columns);
  }

  lemma ProductIsNat(a: nat, b: nat)
    ensures a * b >= 0
  {
  }

  function CountOrOverflow(n: nat): Result<U32, Exception> {
    if n < 0x1_0000_0000 then Success(n) else Failure(OverflowError)
  }

  function SlotBase(id: nat): nat {
    SPM_BASE_ADDR + id * TASK_SLOT_BYTES
  }

  /** The three slot addresses never wrap around 2^32, are word aligned, and lie in the scratchpad. */
  lemma SlotAddresses(id: U32)
    requires id < TASK_SLOT_COUNT
    ensures ScratchSource0(id) == SlotBase(id)
    ensures ScratchSource1(id) == SlotBase(id) + 1024
    ensures ScratchDestination(id) == SlotBase(id) + 2048
    ensures SlotBase(id) % DATA_BYTES == 0
    ensures InScratchpad(SlotBase(id), TASK_SLOT_BYTES)
  {
  }

  lemma SlotsDisjoint(i: nat, j: nat)
    requires i != j
    ensures Disjoint(SlotBase(i), TASK_SLOT_BYTES, SlotBase(j), TASK_SLOT_BYTES)
  {
  }

  /** A byte range used by a task. */
  datatype Span = Span(start: int, size: nat)

  predicate Apart(a: Span, b: Span) {
    Disjoint(a.start, a.size, b.start, b.size)
  }

  /** The scratchpad buffers of task `id`: source 0, source 1, output. */
  function Buffer(w: Workload, id: U32, which: nat): Span
    requires which < 3
  {
    if which == 0 then Span(ScratchSource0(id), 2 * Source0Elements(w))
    else if which == 1 then Span(ScratchSource1(id), 2 * Source1Elements(w))
    else Span(ScratchDestination(id), 2 * OutputElements(w))
  }

  /** Scratchpad separation: the buffers of accepted tasks are word aligned, inside the task's own slot
      of the scratchpad, and pairwise disjoint within a task and across tasks. */
  lemma ScratchpadSeparation(w: Workload, i: U32, a: nat, v: Workload, j: U32, b: nat)
    requires Accepted(w) && !w.kind.DmaCopy? && i < TASK_SLOT_COUNT && a < 3
    requires Accepted(v) && !v.kind.DmaCopy? && j < TASK_SLOT_COUNT && b < 3
    ensures Buffer(w, i, a).start % DATA_BYTES == 0
    ensures InScratchpad(Buffer(w, i, a).start, Buffer(w, i, a).size)
    ensures Inside(Buffer(w, i, a).start, Buffer(w, i, a).size, SlotBase(i), TASK_SLOT_BYTES)
    ensures i != j || (a != b && w == v) ==> Apart(Buffer(w, i, a), Buffer(v, j, b))
  {
    BufferInSlot(w, i, a);
    BufferInSlot(v, j, b);
    if i != j {
      SlotsDisjoint(i, j);
    }
  }

  /** Each buffer has its own quarter of the slot. */
  lemma BufferInSlot(w: Workload, i: U32, a: nat)
    requires Accepted(w) && !w.kind.DmaCopy? && i < TASK_SLOT_COUNT && a < 3
    ensures var buffer := Buffer(w, i, a);
      && buffer.start == SlotBase(i) + 1024 * a && buffer.size <= 512 && buffer.start % DATA_BYTES == 0
      && InScratchpad(buffer.start, buffer.size)
  {
    AcceptedByteCounts(w);
    SlotAddresses(i);
    if a == 0 {
    } else if a == 1 {
    } else {
    }
  }

  lemma SmallOperand(address: int, elements: nat)
    requires elements <= 256 && address % DATA_BYTES == 0 && InScratchpad(address, 512)
    ensures WordBytes(elements) <= 512 && Operand(address, elements)
  {
  }

  predicate MakesLegalCommand(t: Task) {
    && MakeCommand(t).Success?
    && CommandLegal(MakeCommand(t).value)
    && MakeCommand(t).value.opcode != CMD_OP_INVALID
  }

  lemma GemmCommandIsLegal(t: Task)
    requires Accepted(t.workload) && t.workload.kind.Gemm? && t.id < TASK_SLOT_COUNT
    ensures MakesLegalCommand(t)
  {
    AcceptedByteCounts(t.workload);
    SlotAddresses(t.id);
    GemmOperandsAreLegal(MakeCommand(t).value, SlotBase(t.id));
  }

  /** Three buffers of at most 512 bytes, 1024 bytes apart, are legal operands of a small product. */
  lemma GemmOperandsAreLegal(c: Command, base: nat)
    requires c.opcode == CMD_OP_GEMM && 1 <= c.rows <= 8 && 1 <= c.columns <= 8 && 1 <= c.inner <= 8
    requires c.source0 == base && c.source1 == base + 1024 && c.destination == base + 2048
    requires base % DATA_BYTES == 0 && InScratchpad(base, TASK_SLOT_BYTES)
    ensures CommandLegal(c)
  {
    ProductBound(c.rows, c.inner, 8, 8);
    ProductBound(c.inner, c.columns, 8, 8);
    ProductBound(c.rows, c.columns, 8, 8);
    SmallBuffers(base, c.rows * c.inner, c.inner * c.columns, c.rows * c.columns);
  }

  lemma SmallBuffers(base: nat, p: nat, q: nat, r: nat)
    requires p <= 64 && q <= 64 && r <= 64
    requires base % DATA_BYTES == 0 && InScratchpad(base, TASK_SLOT_BYTES)
    ensures Operand(base, p) && Operand(base + 1024, q) && Operand(base + 2048, r)
    ensures Disjoint(base + 2048, WordBytes(r), base, WordBytes(p))
    ensures Disjoint(base + 2048, WordBytes(r), base + 1024, WordBytes(q))
  {
    SmallOperand(base, p);
    SmallOperand(base + 1024, q);
    SmallOperand(base + 2048, r);
  }

  lemma VectorCommandIsLegal(t: Task)
    requires Accepted(t.workload) && t.workload.kind.Vector? && t.id < TASK_SLOT_COUNT
    ensures MakesLegalCommand(t)
  {
    AcceptedByteCounts(t.workload);
    SlotAddresses(t.id);
    var c := MakeCommand(t).value;
    SmallOperand(c.source0, t.workload.length);
    SmallOperand(ScratchSource1(t.id), t.workload.length);
    SmallOperand(c.destination, t.workload.length);
  }

  lemma ReductionCommandIsLegal(t: Task)
    requires Accepted(t.workload) && t.workload.kind.Reduction? && t.id < TASK_SLOT_COUNT
    ensures MakesLegalCommand(t)
  {
    AcceptedByteCounts(t.workload);
    SlotAddresses(t.id);
    var c := MakeCommand(t).value;
    SmallOperand(c.source0, t.workload.length);
    SmallOperand(c.destination, 1);
  }

  /** Every command made for an accepted task passes the accelerator's dimension and address rules. */
  lemma AcceptedCommandIsLegal(t: Task)
    requires Accepted(t.workload) && !t.workload.kind.DmaCopy? && t.id < TASK_SLOT_COUNT
    ensures MakesLegalCommand(t)
  {
    match t.workload.kind
    case Gemm => GemmCommandIsLegal(t);
    case Vector => VectorCommandIsLegal(t);
    case Reduction => ReductionCommandIsLegal(t);
  }

  lemma CommandNames(t: Task)
    requires MakeCommand(t).Success? && t.id < TASK_SLOT_COUNT
    ensures MakeCommand(t).value.priority == t.priority && MakeCommand(t).value.commandId == COMMAND_ID_BASE + t.id
  {
    IdFits(t.id);
  }

  lemma IdFits(id: nat)
    requires id < TASK_SLOT_COUNT
    ensures Wrap32(COMMAND_ID_BASE + id) == COMMAND_ID_BASE + id
  {
  }

  /** The descriptor of an accepted task names the task: its priority, and a command id that no other
      task's command has. */
  lemma CommandIdentity(t: Task, u: Task)
    requires Accepted(t.workload) && !t.workload.kind.DmaCopy? && t.id < TASK_SLOT_COUNT
    requires Accepted(u.workload) && !u.workload.kind.DmaCopy? && u.id < TASK_SLOT_COUNT
    ensures MakeCommand(t).Success? && MakeCommand(u).Success?
    ensures MakeCommand(t).value.priority == t.priority && MakeCommand(t).value.commandId == COMMAND_ID_BASE + t.id
    ensures t.id != u.id ==> MakeCommand(t).value.commandId != MakeCommand(u).value.commandId
  {
    AcceptedCommandExists(t);
    AcceptedCommandExists(u);
    CommandNames(t);
    CommandNames(u);
  }

  /** An accepted staged task always has a command to submit. */
  lemma AcceptedCommandExists(t: Task)
    requires Accepted(t.workload) && !t.workload.kind.DmaCopy?
    ensures MakeCommand(t).Success? && MakeCommand(t).value.opcode != CMD_OP_INVALID
  {
    AcceptedByteCounts(t.workload);
  }

  /** An accepted task in a DMA phase always has a nonempty transfer to start. */
  lemma AcceptedTransfer(t: Task)
    requires Accepted(t.workload) && IsDmaPhase(t.phase)
    requires t.phase.Copy? <==> t.workload.kind.DmaCopy?
    requires t.phase.LoadSource1? ==> HasSource1(t.workload)
    ensures StageTransfer(t).Success? && StageTransfer(t).value.length != 0
  {
    if !t.workload.kind.DmaCopy? {
      AcceptedByteCounts(t.workload);
    }
  }
}

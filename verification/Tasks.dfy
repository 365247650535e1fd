/** Tasks, their workloads, and the byte counts and addresses the scheduler derives from them. */
module Tasks {
  import opened Words
  import opened Soc
  import opened DeviceModel

  datatype TaskState = Ready | Running | BlockedOnDma | BlockedOnAccel | Done | Error

  datatype TaskPhase = Copy | LoadSource0 | LoadSource1 | Execute | StoreOutput | Complete

  datatype WorkloadKind = DmaCopy | Vector | Reduction | Gemm

  datatype Workload = Workload(
    kind: WorkloadKind, opcode: U32, source0: U32, source1: U32, destination: U32,
    length: U32, rows: U32, columns: U32, inner: U32, flags: U32)

  /** The exceptions of the firmware. */
  datatype Exception =
    | InvalidArgument | LengthError | OverflowError | DeviceBusy | InvalidPhase

  /** The reason recorded with a failed task. */
  datatype FailureReason =
    | DmaReportedError | AcceleratorReportedError | DmaInvalidPhase | Thrown(exception: Exception)

  datatype Task = Task(
    id: U32, priority: U32, state: TaskState, phase: TaskPhase, workload: Workload,
    submittedAt: nat, completedAt: nat, failure: Option<FailureReason>)

  predicate Terminal(t: Task) {
    t.state.Done? || t.state.Error?
  }

  // ---- Submission ----

  /** The arguments of the six submission entry points. */
  datatype Request =
    | CopyRequest(source: U32, destination: U32, lengthBytes: U32, priority: U32)
    | VectorAddRequest(source0: U32, source1: U32, destination: U32, length: U32, priority: U32,
                       signedMode: bool, saturate: bool)
    | ReluOrClampRequest(source0: U32, source1: U32, destination: U32, length: U32, clamp: bool,
                         priority: U32, signedMode: bool)
    | ReduceSumRequest(source: U32, destination: U32, length: U32, priority: U32,
                       signedMode: bool, saturate: bool)
    | ReduceMaxRequest(source: U32, destination: U32, length: U32, priority: U32, signedMode: bool)
    | GemmRequest(source0: U32, source1: U32, destination: U32, rows: U32, columns: U32, inner: U32,
                  priority: U32, signedMode: bool, saturate: bool)

  /** `operation_flags`. */
  function OperationFlags(signedMode: bool, saturate: bool): (flags: U32)
    ensures Test(flags, FLAG_SIGNED_BIT) == signedMode
    ensures Test(flags, FLAG_SATURATE_BIT) == saturate
    ensures Test(flags, FLAG_IRQ_ON_DONE_BIT)
  {
    var f0 := RegisterBit(FLAG_IRQ_ON_DONE_BIT);
    var f1 := if signedMode then Or(f0, RegisterBit(FLAG_SIGNED_BIT)) else f0;
    if saturate then Or(f1, RegisterBit(FLAG_SATURATE_BIT)) else f1
  }

  /** The workload a request turns into, or the exception that rejects it. */
  function WorkloadOf(r: Request): Result<Workload, Exception> {
    match r
    case CopyRequest(source, destination, lengthBytes, _) =>
      if lengthBytes == 0 then Failure(InvalidArgument)
      else Success(Workload(DmaCopy, CMD_OP_DMA_COPY, source, 0, destination, lengthBytes, 0, 0, 0, 0))
    case VectorAddRequest(source0, source1, destination, length, _, signedMode, saturate) =>
      if length == 0 || length > MAX_VECTOR_LENGTH then Failure(InvalidArgument)
      else Success(Workload(Vector, CMD_OP_VECTOR_ADD, source0, source1, destination, length, 0, 0, 0,
                            OperationFlags(signedMode, saturate)))
    case ReluOrClampRequest(source0, source1, destination, length, clamp, _, signedMode) =>
      if length == 0 || length > MAX_VECTOR_LENGTH then Failure(InvalidArgument)
      else Success(Workload(Vector, if clamp then CMD_OP_VECTOR_CLAMP else CMD_OP_VECTOR_RELU,
                            source0, source1, destination, length, 0, 0, 0, OperationFlags(signedMode, false)))
    case ReduceSumRequest(source, destination, length, _, signedMode, saturate) =>
      if length == 0 || length > MAX_REDUCTION_LENGTH then Failure(InvalidArgument)
      else Success(Workload(Reduction, CMD_OP_REDUCE_SUM, source, 0, destination, length, 0, 0, 0,
                            OperationFlags(signedMode, saturate)))
    case ReduceMaxRequest(source, destination, length, _, signedMode) =>
      if length == 0 || length > MAX_REDUCTION_LENGTH then Failure(InvalidArgument)
      else Success(Workload(Reduction, CMD_OP_REDUCE_MAX, source, 0, destination, length, 0, 0, 0,
                            OperationFlags(signedMode, false)))
    case GemmRequest(source0, source1, destination, rows, columns, inner, _, signedMode, saturate) =>
      if rows == 0 || rows > MAX_GEMM_M || columns == 0 || columns > MAX_GEMM_N || inner == 0 || inner > MAX_GEMM_K then
        Failure(InvalidArgument)
      else
        Success(Workload(Gemm, CMD_OP_GEMM, source0, source1, destination, 0, rows, columns, inner,
                         OperationFlags(signedMode, saturate)))
  }

  function InitialPhase(w: Workload): TaskPhase {
    if w.kind.DmaCopy? then Copy else LoadSource0
  }

  /** What the submission entry points guarantee about a workload. */
  predicate Accepted(w: Workload) {
    match w.kind
    case DmaCopy => w.length != 0
    case Vector =>
      && 1 <= w.length <= MAX_VECTOR_LENGTH
      && (w.opcode == CMD_OP_VECTOR_ADD || w.opcode == CMD_OP_VECTOR_RELU || w.opcode == CMD_OP_VECTOR_CLAMP)
    case Reduction =>
      && 1 <= w.length <= MAX_REDUCTION_LENGTH
      && (w.opcode == CMD_OP_REDUCE_SUM || w.opcode == CMD_OP_REDUCE_MAX)
    case Gemm =>
      && w.opcode == CMD_OP_GEMM
      && 1 <= w.rows <= MAX_GEMM_M && 1 <= w.columns <= MAX_GEMM_N && 1 <= w.inner <= MAX_GEMM_K
  }

  // ---- Byte counts ----

  /** `checked_product`: a 64-bit product that must fit in 32 bits. */
  function CheckedProduct(lhs: U32, rhs: U32): Result<U32, Exception> {
    if lhs * rhs < TWO32 then Success(lhs * rhs) else Failure(OverflowError)
  }

  function CheckedProduct3(a: U32, b: U32, c: U32): Result<U32, Exception> {
    match CheckedProduct(a, b)
    case Success(ab) => CheckedProduct(ab, c)
    case Failure(e) => Failure(e)
  }

  function Source0Bytes(w: Workload): Result<U32, Exception> {
    if w.kind.Gemm? then CheckedProduct3(w.rows, w.inner, ELEMENT_BYTES)
    else CheckedProduct(w.length, ELEMENT_BYTES)
  }

  function Source1Bytes(w: Workload): Result<U32, Exception> {
    if w.kind.Gemm? then CheckedProduct3(w.inner, w.columns, ELEMENT_BYTES)
    else if w.kind.Vector? && w.opcode != CMD_OP_VECTOR_RELU then CheckedProduct(w.length, ELEMENT_BYTES)
    else Success(0)
  }

  function OutputBytes(w: Workload): Result<U32, Exception> {
    if w.kind.Gemm? then CheckedProduct3(w.rows, w.columns, ELEMENT_BYTES)
    else if w.kind.Reduction? then Success(ELEMENT_BYTES)
    else CheckedProduct(w.length, ELEMENT_BYTES)
  }

  // ---- Scratchpad addresses ----

  function ScratchSource0(id: U32): U32 {
    Wrap32(SPM_BASE_ADDR + Wrap32(id * TASK_SLOT_BYTES) + SOURCE0_OFFSET)
  }

  function ScratchSource1(id: U32): U32 {
    Wrap32(SPM_BASE_ADDR + Wrap32(id * TASK_SLOT_BYTES) + SOURCE1_OFFSET)
  }

  function ScratchDestination(id: U32): U32 {
    Wrap32(SPM_BASE_ADDR + Wrap32(id * TASK_SLOT_BYTES) + DESTINATION_OFFSET)
  }

  // ---- What a stage asks of the hardware ----

  predicate IsDmaPhase(p: TaskPhase) {
    p.Copy? || p.LoadSource0? || p.LoadSource1? || p.StoreOutput?
  }

  /** The transfer `dispatch_dma` starts for a task. */
  function StageTransfer(t: Task): Result<DmaRequest, Exception> {
    match t.phase
    case Copy => Success(DmaRequest(t.workload.source0, t.workload.destination, t.workload.length))
    case LoadSource0 => Transfer(t.workload.source0, ScratchSource0(t.id), Source0Bytes(t.workload))
    case LoadSource1 => Transfer(t.workload.source1, ScratchSource1(t.id), Source1Bytes(t.workload))
    case StoreOutput => Transfer(ScratchDestination(t.id), t.workload.destination, OutputBytes(t.workload))
    case _ => Failure(InvalidPhase)
  }

  function Transfer(source: U32, destination: U32, length: Result<U32, Exception>): Result<DmaRequest, Exception> {
    match length
    case Success(n) => Success(DmaRequest(source, destination, n))
    case Failure(e) => Failure(e)
  }

  /** `make_command`. */
  function MakeCommand(t: Task): Result<Command, Exception> {
    match Source1Bytes(t.workload)
    case Failure(e) => Failure(e)
    case Success(n) =>
      var w := t.workload;
      Success(Command(w.opcode, ScratchSource0(t.id), if n == 0 then 0 else ScratchSource1(t.id),
                      ScratchDestination(t.id), w.length, w.rows, w.columns, w.inner, w.flags,
                      t.priority, Wrap32(COMMAND_ID_BASE + t.id)))
  }
}

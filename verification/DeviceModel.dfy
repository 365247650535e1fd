/** The register-level device the firmware talks to, together with the environment that drives it.

    The device is a value; class `Mmio.FakeMmio` is its mutable form. Before every register access
    (and before the interrupt line is sampled) the environment may complete the DMA transfer or the
    accelerator command in flight, tick the timer, and raise error bits: `Tick`. */
module DeviceModel {
  import opened Words
  import opened Soc

  type RegisterFile = s: seq<U32> | |s| == REGISTER_WORDS witness seq(REGISTER_WORDS, _ => 0)

  /** A DMA transfer as latched when the start bit is written. */
  datatype DmaRequest = DmaRequest(source: U32, destination: U32, length: U32)

  /** An accelerator command as latched when the submit bit is written. */
  datatype Command = Command(
    opcode: U32, source0: U32, source1: U32, destination: U32, length: U32,
    rows: U32, columns: U32, inner: U32, flags: U32, priority: U32, commandId: U32)

  /** What the environment decides about an operation in flight. A waiting operation may already have written
      `bytes` somewhere in its destination range. A finishing one says at which moment of its flight it
      has read each source address: `moments`. A fault may leave `junk` in the destination range. */
  datatype Verdict = Waiting(bytes: map<nat, Byte>) | Finish(moments: map<nat, nat>) | Fault(junk: map<nat, Byte>)

  datatype EnvStep = EnvStep(dma: Verdict, accelerator: Verdict, timer: bool, errors: U32)

  /** The environment: what happens immediately before the n-th access. */
  type Env = nat -> EnvStep

  /** An operation that has left the hardware. */
  datatype Retired =
    | DmaDone(request: DmaRequest)
    | DmaFault(request: DmaRequest, junk: map<nat, Byte>)
    | CommandDone(command: Command)
    | CommandFault(command: Command, junk: map<nat, Byte>)

  /** What happens to memory: an operation in flight writes some bytes, or an operation leaves the hardware,
      having read its operands at any moments since it was started. Moments count memory events. */
  datatype MemoryEvent =
    | Transferring(request: DmaRequest, bytes: map<nat, Byte>)
    | Computing(command: Command, bytes: map<nat, Byte>)
    | Leaving(operation: Retired, since: nat, moments: map<nat, nat>)

  datatype Device = Device(
    time: nat,
    registers: RegisterFile,
    irqPending: U32,
    dma: DmaRequest,
    command: Command,
    dmaSince: nat,
    commandSince: nat,
    retired: seq<Retired>,
    events: seq<MemoryEvent>)

  datatype CompletionStatus = CompletionStatus(busy: bool, done: bool, error: bool)

  /** The address rules of the DMA engine: aligned endpoints, each range inside one region, and no
      overlap except an exact self-copy. A transfer that breaks them faults without touching memory. */
  predicate DmaLegal(r: DmaRequest) {
    && r.source % DATA_BYTES == 0 && r.destination % DATA_BYTES == 0
    && (InScratchpad(r.source, r.length) || InDram(r.source, r.length))
    && (InScratchpad(r.destination, r.length) || InDram(r.destination, r.length))
    && (r.source == r.destination || Disjoint(r.source, r.length, r.destination, r.length))
  }

  function WordBytes(elements: nat): nat {
    ((elements * ELEMENT_BYTES + DATA_BYTES - 1) / DATA_BYTES) * DATA_BYTES
  }

  predicate Operand(address: int, elements: nat) {
    address % DATA_BYTES == 0 && InScratchpad(address, WordBytes(elements))
  }

  /** The address rules of a matrix product, given the sizes of its operands and its result. */
  predicate ProductLegal(c: Command, left: nat, right: nat, result: nat) {
    && Operand(c.source0, left) && Operand(c.source1, right) && Operand(c.destination, result)
    && Disjoint(c.destination, WordBytes(result), c.source0, WordBytes(left))
    && Disjoint(c.destination, WordBytes(result), c.source1, WordBytes(right))
  }

  /** The dimension and address rules of the three accelerators. */
  predicate CommandLegal(c: Command) {
    if c.opcode == CMD_OP_GEMM then
      && 1 <= c.rows <= MAX_GEMM_M && 1 <= c.columns <= MAX_GEMM_N && 1 <= c.inner <= MAX_GEMM_K
      && ProductLegal(c, c.rows * c.inner, c.inner * c.columns, c.rows * c.columns)
    else if c.opcode == CMD_OP_REDUCE_SUM || c.opcode == CMD_OP_REDUCE_MAX then
      1 <= c.length <= MAX_REDUCTION_LENGTH && Operand(c.source0, c.length) && Operand(c.destination, 1)
    else
      && CMD_OP_VECTOR_ADD <= c.opcode <= CMD_OP_VECTOR_CLAMP
      && 1 <= c.length <= MAX_VECTOR_LENGTH
      && Operand(c.source0, c.length) && Operand(c.destination, c.length)
      && (c.opcode == CMD_OP_VECTOR_RELU || Operand(c.source1, if c.opcode == CMD_OP_VECTOR_SCALE then 1 else c.length))
  }

  // ---- Register access ----

  function Peek(d: Device, offset: Offset): U32 {
    if offset == REG_IRQ_STATUS then d.irqPending else d.registers[offset / 4]
  }

  function SetRegister(d: Device, offset: Offset, value: U32): Device {
    d.(registers := d.registers[offset / 4 := value])
  }

  /** A register write: interrupt and status registers are write-one-to-clear, everything else is
      stored; the start and submit bits latch the staged operation and raise the busy bit. */
  function Poke(d: Device, offset: Offset, value: U32): Device {
    if offset == REG_IRQ_STATUS then
      d.(irqPending := AndNot(d.irqPending, value))
    else if offset == REG_DMA_STATUS || offset == REG_CMD_STATUS then
      SetRegister(d, offset, AndNot(Peek(d, offset), value))
    else
      var stored := SetRegister(d, offset, value);
      if offset == REG_DMA_CTRL && Test(value, DMA_CTRL_START_BIT) then
        StartTransfer(stored)
      else if offset == REG_CMD_SUBMIT && Test(value, CMD_SUBMIT_BIT) then
        SubmitCommand(stored)
      else
        stored
  }

  function StartTransfer(d: Device): Device {
    SetRegister(d, REG_DMA_STATUS, RegisterBit(DMA_STATUS_BUSY_BIT)).(dma := StagedDma(d), dmaSince := |d.events|)
  }

  function SubmitCommand(d: Device): Device {
    SetRegister(d, REG_CMD_STATUS, RegisterBit(CMD_STATUS_PENDING_BIT)).(
      command := StagedCommand(d), commandSince := |d.events|)
  }

  function StagedDma(d: Device): DmaRequest {
    DmaRequest(Peek(d, REG_DMA_SRC_ADDR), Peek(d, REG_DMA_DST_ADDR), Peek(d, REG_DMA_LEN_BYTES))
  }

  function StagedCommand(d: Device): Command {
    Command(Peek(d, REG_CMD_OPCODE), Peek(d, REG_CMD_SRC0_ADDR), Peek(d, REG_CMD_SRC1_ADDR),
            Peek(d, REG_CMD_DST_ADDR), Peek(d, REG_CMD_LEN), Peek(d, REG_CMD_M), Peek(d, REG_CMD_N),
            Peek(d, REG_CMD_K), Peek(d, REG_CMD_FLAGS), Peek(d, REG_CMD_PRIORITY), Peek(d, REG_CMD_ID))
  }

  predicate DmaBusy(d: Device) {
    Test(Peek(d, REG_DMA_STATUS), DMA_STATUS_BUSY_BIT)
  }

  predicate CommandBusy(d: Device) {
    Test(Peek(d, REG_CMD_STATUS), CMD_STATUS_PENDING_BIT)
  }

  /** The engine's own interrupt enable: without it a transfer completes without raising the DMA bit. */
  predicate DmaSignals(d: Device) {
    Test(Peek(d, REG_DMA_CTRL), DMA_CTRL_IRQ_ENABLE_BIT)
  }

  /** The global enable: without it no command is executed. */
  predicate ExecutionEnabled(d: Device) {
    Test(Peek(d, REG_CTRL), CTRL_ENABLE_BIT)
  }

  function DmaStatus(d: Device): CompletionStatus {
    var value := Peek(d, REG_DMA_STATUS);
    CompletionStatus(Test(value, DMA_STATUS_BUSY_BIT), Test(value, DMA_STATUS_DONE_BIT),
                     Test(value, DMA_STATUS_ERROR_BIT))
  }

  function CommandStatus(d: Device): CompletionStatus {
    var value := Peek(d, REG_CMD_STATUS);
    CompletionStatus(Test(value, CMD_STATUS_PENDING_BIT), Test(value, CMD_STATUS_DONE_BIT),
                     Test(value, CMD_STATUS_ERROR_BIT))
  }

  /** The level of the interrupt line. */
  predicate IrqAsserted(d: Device) {
    And(d.irqPending, Peek(d, REG_IRQ_ENABLE)) != 0
  }

  // ---- The environment ----

  function Moments(verdict: Verdict): map<nat, nat> {
    if verdict.Finish? then verdict.moments else map[]
  }

  /** The transfer in flight leaves the engine: DONE (and ERROR on a fault) and the interrupt bit
      appear together. */
  function CompleteDma(d: Device, verdict: Verdict): Device
    requires !verdict.Waiting?
  {
    var ok := verdict.Finish? && DmaLegal(d.dma);
    var done := RegisterBit(DMA_STATUS_DONE_BIT);
    var status := if ok then done else Or(done, RegisterBit(DMA_STATUS_ERROR_BIT));
    var entry :=
      if ok then DmaDone(d.dma)
      else DmaFault(d.dma, if verdict.Fault? && DmaLegal(d.dma) then verdict.junk else map[]);
    SetRegister(d, REG_DMA_STATUS, status).(
      irqPending := Or(d.irqPending, RegisterBit(IRQ_DMA_DONE_BIT)),
      retired := d.retired + [entry],
      events := d.events + [Leaving(entry, d.dmaSince, Moments(verdict))])
  }

  function CompleteAccelerator(d: Device, verdict: Verdict): Device
    requires !verdict.Waiting?
  {
    var ok := verdict.Finish? && CommandLegal(d.command);
    var done := RegisterBit(CMD_STATUS_DONE_BIT);
    var status := if ok then done else Or(done, RegisterBit(CMD_STATUS_ERROR_BIT));
    var entry :=
      if ok then CommandDone(d.command)
      else CommandFault(d.command, if verdict.Fault? && CommandLegal(d.command) then verdict.junk else map[]);
    SetRegister(d, REG_CMD_STATUS, status).(
      irqPending := Or(Or(d.irqPending, RegisterBit(IRQ_CMD_DONE_BIT)), RegisterBit(IRQ_ACCEL_DONE_BIT)),
      retired := d.retired + [entry],
      events := d.events + [Leaving(entry, d.commandSince, Moments(verdict))])
  }

  function TickDma(d: Device, verdict: Verdict): Device {
    if !DmaBusy(d) then d
    else if verdict.Waiting? then d.(events := d.events + [Transferring(d.dma, verdict.bytes)])
    else if DmaSignals(d) then CompleteDma(d, verdict)
    else CompleteDma(d, verdict).(irqPending := d.irqPending)
  }

  function TickAccelerator(d: Device, verdict: Verdict): Device {
    if !CommandBusy(d) || !ExecutionEnabled(d) then d
    else if verdict.Waiting? then d.(events := d.events + [Computing(d.command, verdict.bytes)])
    else CompleteAccelerator(d, verdict)
  }

  function TickTimer(d: Device, expired: bool): Device {
    if expired then d.(irqPending := Or(d.irqPending, RegisterBit(IRQ_TIMER_BIT))) else d
  }

  function TickErrors(d: Device, errors: U32): Device {
    if errors == 0 then d
    else
      SetRegister(d, REG_ERROR_STATUS, Or(Peek(d, REG_ERROR_STATUS), errors)).(
        irqPending := Or(d.irqPending, RegisterBit(IRQ_ERROR_BIT)))
  }

  /** One environment step. */
  function Tick(env: Env, d: Device): Device {
    var step := env(d.time);
    var d1 := TickDma(d, step.dma);
    var d2 := TickAccelerator(d1, step.accelerator);
    var d3 := TickTimer(d2, step.timer);
    var d4 := TickErrors(d3, step.errors);
    d4.(time := d.time + 1)
  }

  function Write(env: Env, d: Device, offset: Offset, value: U32): Device {
    Poke(Tick(env, d), offset, value)
  }
}

/** Pipelined, interleaved execution refines atomic execution of each workload by the reference model. */
module Refinement {
  import opened Words
  import opened Soc
  import opened DeviceModel
  import opened Tasks
  import opened Layout
  import opened SchedulerSteps
  import opened MemoryModel

  // ---- The byte ranges of a workload ----

  const SCRATCHPAD := Span(SPM_BASE_ADDR, SPM_SIZE_BYTES)

  function Slot(id: nat): Span {
    Span(SlotBase(id), TASK_SLOT_BYTES)
  }

  function ResultSpan(w: Workload): Span {
    Span(w.destination, ResultBytes(w))
  }

  predicate Inhabits(a: nat, span: Span) {
    span.start <= a < span.start + span.size
  }

  /** The external ranges of the workload avoid the span. */
  predicate Avoids(w: Workload, span: Span) {
    && Disjoint(w.source0, LeftBytes(w), span.start, span.size)
    && Disjoint(w.source1, RightBytes(w), span.start, span.size)
    && Disjoint(w.destination, ResultBytes(w), span.start, span.size)
  }

  /** No workload uses the scratchpad as external memory, and no destination meets a source or a
      destination of another workload. */
  predicate Isolated(ws: seq<Workload>) {
    && |ws| <= TASK_SLOT_COUNT
    && (forall i :: 0 <= i < |ws| ==> Accepted(ws[i]) && Avoids(ws[i], SCRATCHPAD))
    && (forall i, j :: 0 <= i < |ws| && 0 <= j < |ws| && i != j ==> Avoids(ws[i], ResultSpan(ws[j])))
  }

  // ---- What memory holds for a task that has completed k operations ----

  predicate SameBytes(m0: Memory, m: Memory, address: nat, n: nat) {
    ReadBytes(m, address, n) == ReadBytes(m0, address, n)
  }

  /** The task's slot: each loaded source is a copy of the original source, and an executed command has
      left the reference result. */
  predicate Staged(w: Workload, id: nat, k: nat, m0: Memory, m: Memory)
    requires Accepted(w)
  {
    && (k >= 1 ==> ReadBytes(m, SlotBase(id), LeftBytes(w)) == ReadBytes(m0, w.source0, LeftBytes(w)))
    && (k >= 2 && HasSource1(w) ==>
          ReadBytes(m, SlotBase(id) + SOURCE1_OFFSET, RightBytes(w)) == ReadBytes(m0, w.source1, RightBytes(w)))
    && (k + 1 >= StageCount(w) ==> ReadBytes(m, SlotBase(id) + DESTINATION_OFFSET, ResultBytes(w)) == Reference(w, m0))
  }

  /** The external sources are still read by operation `k` or a later one. */
  predicate StillReads(w: Workload, k: nat)
    requires Accepted(w)
  {
    k + 1 < StageCount(w) || (w.kind.DmaCopy? && k == 0)
  }

  /** As long as they are read the sources are the original ones; after the last operation the destination holds
      the reference result of the original sources. */
  predicate Holds(w: Workload, id: nat, k: nat, m0: Memory, m: Memory)
    requires Accepted(w)
  {
    && (StillReads(w, k) ==> SameBytes(m0, m, w.source0, LeftBytes(w)) && SameBytes(m0, m, w.source1, RightBytes(w)))
    && (!w.kind.DmaCopy? ==> Staged(w, id, k, m0, m))
    && (k >= StageCount(w) ==> ReadBytes(m, w.destination, ResultBytes(w)) == Reference(w, m0))
  }

  lemma SpanSizes(w: Workload)
    requires Accepted(w) && !w.kind.DmaCopy?
    ensures 2 <= LeftBytes(w) <= 512 && RightBytes(w) <= 512 && 2 <= ResultBytes(w) <= 512
    ensures LeftBytes(w) == 2 * Source0Elements(w) && RightBytes(w) == 2 * Source1Elements(w)
    ensures ResultBytes(w) == 2 * OutputElements(w)
  {
    AcceptedByteCounts(w);
  }

  /** Writes that avoid the task's ranges and slot leave what it holds alone. */
  lemma HoldsFrame(w: Workload, id: nat, k: nat, m0: Memory, m: Memory, m': Memory, span: Span)
    requires Accepted(w) && Holds(w, id, k, m0, m)
    requires AgreeOutside(m, m', span) && Avoids(w, span) && Apart(Slot(id), span)
    ensures Holds(w, id, k, m0, m')
  {
    ReadFrame(m, m', span, w.source0, LeftBytes(w));
    ReadFrame(m, m', span, w.source1, RightBytes(w));
    ReadFrame(m, m', span, w.destination, ResultBytes(w));
    if !w.kind.DmaCopy? {
      SpanSizes(w);
      SlotFrame(w, id, m, m', span);
    }
  }

  lemma SlotFrame(w: Workload, id: nat, m: Memory, m': Memory, span: Span)
    requires LeftBytes(w) <= 512 && RightBytes(w) <= 512 && ResultBytes(w) <= 512
    requires AgreeOutside(m, m', span) && Apart(Slot(id), span)
    ensures ReadBytes(m', SlotBase(id), LeftBytes(w)) == ReadBytes(m, SlotBase(id), LeftBytes(w))
    ensures ReadBytes(m', SlotBase(id) + SOURCE1_OFFSET, RightBytes(w))
         == ReadBytes(m, SlotBase(id) + SOURCE1_OFFSET, RightBytes(w))
    ensures ReadBytes(m', SlotBase(id) + DESTINATION_OFFSET, ResultBytes(w))
         == ReadBytes(m, SlotBase(id) + DESTINATION_OFFSET, ResultBytes(w))
  {
    ReadFrame(m, m', span, SlotBase(id), LeftBytes(w));
    ReadFrame(m, m', span, SlotBase(id) + SOURCE1_OFFSET, RightBytes(w));
    ReadFrame(m, m', span, SlotBase(id) + DESTINATION_OFFSET, ResultBytes(w));
  }

  // ---- One operation of a task ----

  /** The transfer has copied its source range to its destination range and changed nothing else. */
  ghost predicate Copied(m: Memory, m': Memory, q: DmaRequest) {
    && ReadBytes(m', q.destination, q.length) == ReadBytes(m, q.source, q.length)
    && AgreeOutside(m, m', Span(q.destination, q.length))
  }

  lemma FinishedTransferCopies(m: Memory, seen: Memory, q: DmaRequest)
    requires SameBytes(m, seen, q.source, q.length)
    ensures Copied(m, Effect(m, seen, DmaDone(q)), q)
  {
    ReadWritten(m, q.destination, ReadBytes(m, q.source, q.length));
  }

  lemma CopyAdvances(t: Task, m0: Memory, m: Memory, m': Memory, q: DmaRequest)
    requires Accepted(t.workload) && t.workload.kind.DmaCopy? && t.phase.Copy?
    requires StageTransfer(t) == Success(q) && Holds(t.workload, t.id, 0, m0, m) && Copied(m, m', q)
    ensures Holds(t.workload, t.id, 1, m0, m')
  {
  }

  lemma Load0Advances(t: Task, m0: Memory, m: Memory, m': Memory, q: DmaRequest)
    requires Accepted(t.workload) && !t.workload.kind.DmaCopy? && t.phase.LoadSource0? && t.id < TASK_SLOT_COUNT
    requires StageTransfer(t) == Success(q) && Avoids(t.workload, SCRATCHPAD)
    requires Holds(t.workload, t.id, 0, m0, m) && Copied(m, m', q)
    ensures Holds(t.workload, t.id, 1, m0, m')
  {
    var w := t.workload;
    AcceptedByteCounts(w);
    SlotAddresses(t.id);
    var span := Span(q.destination, q.length);
    ReadFrame(m, m', span, w.source0, LeftBytes(w));
    ReadFrame(m, m', span, w.source1, RightBytes(w));
  }

  lemma Load1Advances(t: Task, m0: Memory, m: Memory, m': Memory, q: DmaRequest)
    requires Accepted(t.workload) && !t.workload.kind.DmaCopy? && t.phase.LoadSource1? && t.id < TASK_SLOT_COUNT
    requires HasSource1(t.workload)
    requires StageTransfer(t) == Success(q) && Avoids(t.workload, SCRATCHPAD)
    requires Holds(t.workload, t.id, 1, m0, m) && Copied(m, m', q)
    ensures Holds(t.workload, t.id, 2, m0, m')
  {
    var w := t.workload;
    AcceptedByteCounts(w);
    SlotAddresses(t.id);
    var span := Span(q.destination, q.length);
    ReadFrame(m, m', span, w.source0, LeftBytes(w));
    ReadFrame(m, m', span, w.source1, RightBytes(w));
    ReadFrame(m, m', span, SlotBase(t.id), LeftBytes(w));
  }

  /** The transfer of the store phase: the slot's output buffer to the destination. */
  lemma StoreRequest(t: Task, q: DmaRequest)
    requires Accepted(t.workload) && !t.workload.kind.DmaCopy? && t.phase.StoreOutput? && t.id < TASK_SLOT_COUNT
    requires StageTransfer(t) == Success(q)
    ensures q == DmaRequest(SlotBase(t.id) + DESTINATION_OFFSET, t.workload.destination, ResultBytes(t.workload))
    ensures Avoids(t.workload, SCRATCHPAD) ==> Apart(Slot(t.id), ResultSpan(t.workload))
  {
    AcceptedByteCounts(t.workload);
    SlotAddresses(t.id);
  }

  lemma StoreAdvances(w: Workload, id: nat, m0: Memory, m: Memory, m': Memory)
    requires Accepted(w) && !w.kind.DmaCopy? && Holds(w, id, StageCount(w) - 1, m0, m)
    requires AgreeOutside(m, m', ResultSpan(w)) && Apart(Slot(id), ResultSpan(w))
    requires ReadBytes(m', w.destination, ResultBytes(w))
          == ReadBytes(m, SlotBase(id) + DESTINATION_OFFSET, ResultBytes(w))
    ensures Holds(w, id, StageCount(w), m0, m')
  {
    SpanSizes(w);
    SlotFrame(w, id, m, m', ResultSpan(w));
  }

  lemma StoreTransferAdvances(t: Task, m0: Memory, m: Memory, m': Memory, q: DmaRequest)
    requires Accepted(t.workload) && !t.workload.kind.DmaCopy? && t.phase.StoreOutput? && t.id < TASK_SLOT_COUNT
    requires StageTransfer(t) == Success(q) && Avoids(t.workload, SCRATCHPAD) && Copied(m, m', q)
    requires Holds(t.workload, t.id, StageCount(t.workload) - 1, m0, m)
    ensures Holds(t.workload, t.id, StageCount(t.workload), m0, m')
  {
    StoreRequest(t, q);
    StoreCompletes(t.workload, t.id, m0, m, m', q);
  }

  lemma StoreCompletes(w: Workload, id: U32, m0: Memory, m: Memory, m': Memory, q: DmaRequest)
    requires Accepted(w) && !w.kind.DmaCopy? && Holds(w, id, StageCount(w) - 1, m0, m)
    requires q.source == SlotBase(id) + DESTINATION_OFFSET && q.destination == w.destination
    requires q.length == ResultBytes(w) && Copied(m, m', q) && Apart(Slot(id), ResultSpan(w))
    ensures Holds(w, id, StageCount(w), m0, m')
  {
    StoreAdvances(w, id, m0, m, m');
  }

  /** A finished transfer of a task moves what memory holds for it one operation on. */
  lemma TransferAdvances(t: Task, m0: Memory, m: Memory, m': Memory, q: DmaRequest)
    requires Accepted(t.workload) && PhaseFits(t.workload, t.phase) && IsDmaPhase(t.phase) && t.id < TASK_SLOT_COUNT
    requires StageTransfer(t) == Success(q) && Avoids(t.workload, SCRATCHPAD) && Copied(m, m', q)
    requires Holds(t.workload, t.id, StageIndex(t.workload, t.phase), m0, m)
    ensures Holds(t.workload, t.id, StageIndex(t.workload, t.phase) + 1, m0, m')
  {
    match t.phase
    case Copy => CopyAdvances(t, m0, m, m', q);
    case LoadSource0 => Load0Advances(t, m0, m, m', q);
    case LoadSource1 => Load1Advances(t, m0, m, m', q);
    case StoreOutput => StoreTransferAdvances(t, m0, m, m', q);
  }

  /** The fields of the command of a task. */
  lemma CommandFields(t: Task, c: Command)
    requires Accepted(t.workload) && !t.workload.kind.DmaCopy? && t.id < TASK_SLOT_COUNT
    requires MakeCommand(t) == Success(c)
    ensures CommandOperation(c) == WorkloadOperation(t.workload)
    ensures c.source0 == SlotBase(t.id) && c.destination == SlotBase(t.id) + DESTINATION_OFFSET
    ensures c.source1 == if HasSource1(t.workload) then SlotBase(t.id) + SOURCE1_OFFSET else 0
  {
    AcceptedByteCounts(t.workload);
    SlotAddresses(t.id);
  }

  lemma NoSecondSource(w: Workload)
    requires Accepted(w) && !w.kind.DmaCopy? && !HasSource1(w)
    ensures RightBytes(w) == 0
  {
    AcceptedByteCounts(w);
  }

  /** The workload's operation on operands with the bytes of its sources has the reference result. */
  lemma SameOperandsSameOutput(w: Workload, c: Command, m0: Memory, m: Memory)
    requires Accepted(w) && !w.kind.DmaCopy? && CommandOperation(c) == WorkloadOperation(w)
    requires ReadBytes(m, c.source0, LeftBytes(w)) == ReadBytes(m0, w.source0, LeftBytes(w))
    requires ReadBytes(m, c.source1, RightBytes(w)) == ReadBytes(m0, w.source1, RightBytes(w))
    ensures Performable(CommandOperation(c)) && CommandOutput(c, m) == Reference(w, m0)
  {
    AcceptedCounts(w);
  }

  /** A command on correctly loaded sources computes the reference result, for the output buffer. */
  lemma CommandComputesReference(t: Task, c: Command, m0: Memory, m: Memory)
    requires Accepted(t.workload) && !t.workload.kind.DmaCopy? && t.id < TASK_SLOT_COUNT
    requires MakeCommand(t) == Success(c)
    requires SlotLoaded(t.workload, t.id, m0, m)
    ensures c.destination == SlotBase(t.id) + DESTINATION_OFFSET
    ensures Performable(CommandOperation(c)) && CommandOutput(c, m) == Reference(t.workload, m0)
  {
    CommandFields(t, c);
    if !HasSource1(t.workload) {
      NoSecondSource(t.workload);
    }
    SameOperandsSameOutput(t.workload, c, m0, m);
  }

  predicate SlotLoaded(w: Workload, id: nat, m0: Memory, m: Memory) {
    && ReadBytes(m, SlotBase(id), LeftBytes(w)) == ReadBytes(m0, w.source0, LeftBytes(w))
    && (HasSource1(w) ==>
          ReadBytes(m, SlotBase(id) + SOURCE1_OFFSET, RightBytes(w)) == ReadBytes(m0, w.source1, RightBytes(w)))
  }

  /** What the completed command of a task writes, and where, when it has seen the loaded sources. */
  lemma CommandWrites(t: Task, c: Command, m0: Memory, m: Memory, seen: Memory)
    requires Accepted(t.workload) && !t.workload.kind.DmaCopy? && t.id < TASK_SLOT_COUNT
    requires MakeCommand(t) == Success(c) && SlotLoaded(t.workload, t.id, m0, seen)
    ensures Effect(m, seen, CommandDone(c))
         == WriteBytes(m, SlotBase(t.id) + DESTINATION_OFFSET, Reference(t.workload, m0))
  {
    CommandComputesReference(t, c, m0, seen);
  }

  /** Writing the output buffer leaves the external ranges and the two source buffers alone. */
  lemma OutputWriteFrame(w: Workload, id: nat, m: Memory, m': Memory)
    requires Accepted(w) && !w.kind.DmaCopy? && id < TASK_SLOT_COUNT && Avoids(w, SCRATCHPAD)
    requires AgreeOutside(m, m', Span(SlotBase(id) + DESTINATION_OFFSET, ResultBytes(w)))
    ensures SameBytes(m, m', w.source0, LeftBytes(w)) && SameBytes(m, m', w.source1, RightBytes(w))
    ensures SameBytes(m, m', SlotBase(id), LeftBytes(w))
    ensures SameBytes(m, m', SlotBase(id) + SOURCE1_OFFSET, RightBytes(w))
  {
    SpanSizes(w);
    SlotAddresses(id);
    var span := Span(SlotBase(id) + DESTINATION_OFFSET, ResultBytes(w));
    ReadFrame(m, m', span, w.source0, LeftBytes(w));
    ReadFrame(m, m', span, w.source1, RightBytes(w));
    ReadFrame(m, m', span, SlotBase(id), LeftBytes(w));
    ReadFrame(m, m', span, SlotBase(id) + SOURCE1_OFFSET, RightBytes(w));
  }

  lemma OutputWritten(w: Workload, id: nat, k: nat, m0: Memory, m: Memory, m': Memory)
    requires Accepted(w) && !w.kind.DmaCopy? && k + 2 == StageCount(w) && Holds(w, id, k, m0, m)
    requires SameBytes(m, m', w.source0, LeftBytes(w)) && SameBytes(m, m', w.source1, RightBytes(w))
    requires SameBytes(m, m', SlotBase(id), LeftBytes(w))
    requires SameBytes(m, m', SlotBase(id) + SOURCE1_OFFSET, RightBytes(w))
    requires ReadBytes(m', SlotBase(id) + DESTINATION_OFFSET, ResultBytes(w)) == Reference(w, m0)
    ensures Holds(w, id, k + 1, m0, m')
  {
  }

  lemma WrittenAdvances(w: Workload, id: nat, k: nat, m0: Memory, m: Memory, m': Memory, data: seq<Byte>)
    requires Accepted(w) && !w.kind.DmaCopy? && id < TASK_SLOT_COUNT && Avoids(w, SCRATCHPAD)
    requires k + 2 == StageCount(w) && Holds(w, id, k, m0, m)
    requires data == Reference(w, m0) && m' == WriteBytes(m, SlotBase(id) + DESTINATION_OFFSET, data)
    ensures Holds(w, id, k + 1, m0, m')
  {
    var output := SlotBase(id) + DESTINATION_OFFSET;
    WriteAgrees(m, output, data);
    ReadWritten(m, output, data);
    OutputWriteFrame(w, id, m, m');
    OutputWritten(w, id, k, m0, m, m');
  }

  lemma LoadedBeforeExecute(w: Workload, id: nat, k: nat, m0: Memory, m: Memory)
    requires Accepted(w) && PhaseFits(w, Execute) && k == StageIndex(w, Execute) && Holds(w, id, k, m0, m)
    ensures !w.kind.DmaCopy? && k + 2 == StageCount(w) && SlotLoaded(w, id, m0, m)
  {
  }

  lemma CommandAdvances(t: Task, c: Command, k: nat, m0: Memory, m: Memory, seen: Memory, m': Memory)
    requires Accepted(t.workload) && PhaseFits(t.workload, Execute) && k == StageIndex(t.workload, Execute)
    requires t.id < TASK_SLOT_COUNT && Avoids(t.workload, SCRATCHPAD)
    requires MakeCommand(t) == Success(c) && SameOperands(c, m, seen) && m' == Effect(m, seen, CommandDone(c))
    requires Holds(t.workload, t.id, k, m0, m)
    ensures Holds(t.workload, t.id, k + 1, m0, m')
  {
    var data := Reference(t.workload, m0);
    LoadedBeforeExecute(t.workload, t.id, k, m0, m);
    CommandLeaves(t, c, m0, m, seen, m', data);
    WrittenAdvances(t.workload, t.id, k, m0, m, m', data);
  }

  /** What a command whose operands have not changed leaves. */
  lemma CommandLeaves(t: Task, c: Command, m0: Memory, m: Memory, seen: Memory, m': Memory, data: seq<Byte>)
    requires Accepted(t.workload) && !t.workload.kind.DmaCopy? && t.id < TASK_SLOT_COUNT
    requires MakeCommand(t) == Success(c) && SameOperands(c, m, seen) && m' == Effect(m, seen, CommandDone(c))
    requires SlotLoaded(t.workload, t.id, m0, m) && data == Reference(t.workload, m0)
    ensures m' == WriteBytes(m, SlotBase(t.id) + DESTINATION_OFFSET, data)
  {
    OperandsLoaded(t, c, m0, m, seen);
    CommandWrites(t, c, m0, m, seen);
  }

  /** The command's operands have the same bytes in both memories. */
  predicate SameOperands(c: Command, m: Memory, m': Memory) {
    var o := CommandOperation(c);
    SameBytes(m, m', c.source0, 2 * LeftCount(o)) && SameBytes(m, m', c.source1, 2 * RightCount(o))
  }

  lemma OperandsLoaded(t: Task, c: Command, m0: Memory, m: Memory, seen: Memory)
    requires Accepted(t.workload) && !t.workload.kind.DmaCopy? && t.id < TASK_SLOT_COUNT
    requires MakeCommand(t) == Success(c) && SameOperands(c, m, seen) && SlotLoaded(t.workload, t.id, m0, m)
    ensures SlotLoaded(t.workload, t.id, m0, seen)
  {
    CommandFields(t, c);
    AcceptedCounts(t.workload);
  }

  // ---- Operations in flight ----

  /** A transfer in flight, whatever it has already written, leaves what memory holds for its task alone. */
  lemma TransferringKeeps(t: Task, m0: Memory, m: Memory, m': Memory, q: DmaRequest)
    requires Accepted(t.workload) && PhaseFits(t.workload, t.phase) && IsDmaPhase(t.phase) && t.id < TASK_SLOT_COUNT
    requires StageTransfer(t) == Success(q) && Avoids(t.workload, SCRATCHPAD) && WritesEarly(q)
    requires AgreeOutside(m, m', Span(q.destination, q.length))
    requires Holds(t.workload, t.id, StageIndex(t.workload, t.phase), m0, m)
    ensures Holds(t.workload, t.id, StageIndex(t.workload, t.phase), m0, m')
  {
    match t.phase
    case Copy => CopyingKeeps(t, m0, m, m', q);
    case LoadSource0 => Loading0Keeps(t, m0, m, m', q);
    case LoadSource1 => Loading1Keeps(t, m0, m, m', q);
    case StoreOutput => StoringKeeps(t, m0, m, m', q);
  }

  lemma CopyingKeeps(t: Task, m0: Memory, m: Memory, m': Memory, q: DmaRequest)
    requires Accepted(t.workload) && t.workload.kind.DmaCopy? && t.phase.Copy?
    requires StageTransfer(t) == Success(q) && WritesEarly(q) && AgreeOutside(m, m', Span(q.destination, q.length))
    requires Holds(t.workload, t.id, 0, m0, m)
    ensures Holds(t.workload, t.id, 0, m0, m')
  {
    ReadFrame(m, m', Span(q.destination, q.length), q.source, q.length);
  }

  lemma Loading0Keeps(t: Task, m0: Memory, m: Memory, m': Memory, q: DmaRequest)
    requires Accepted(t.workload) && !t.workload.kind.DmaCopy? && t.phase.LoadSource0? && t.id < TASK_SLOT_COUNT
    requires StageTransfer(t) == Success(q) && Avoids(t.workload, SCRATCHPAD)
    requires AgreeOutside(m, m', Span(q.destination, q.length))
    requires Holds(t.workload, t.id, 0, m0, m)
    ensures Holds(t.workload, t.id, 0, m0, m')
  {
    var w := t.workload;
    AcceptedByteCounts(w);
    SlotAddresses(t.id);
    var span := Span(q.destination, q.length);
    ReadFrame(m, m', span, w.source0, LeftBytes(w));
    ReadFrame(m, m', span, w.source1, RightBytes(w));
  }

  lemma Loading1Keeps(t: Task, m0: Memory, m: Memory, m': Memory, q: DmaRequest)
    requires Accepted(t.workload) && !t.workload.kind.DmaCopy? && t.phase.LoadSource1? && t.id < TASK_SLOT_COUNT
    requires HasSource1(t.workload)
    requires StageTransfer(t) == Success(q) && Avoids(t.workload, SCRATCHPAD)
    requires AgreeOutside(m, m', Span(q.destination, q.length))
    requires Holds(t.workload, t.id, 1, m0, m)
    ensures Holds(t.workload, t.id, 1, m0, m')
  {
    var w := t.workload;
    AcceptedByteCounts(w);
    SlotAddresses(t.id);
    var span := Span(q.destination, q.length);
    ReadFrame(m, m', span, w.source0, LeftBytes(w));
    ReadFrame(m, m', span, w.source1, RightBytes(w));
    ReadFrame(m, m', span, SlotBase(t.id), LeftBytes(w));
  }

  lemma StoringKeeps(t: Task, m0: Memory, m: Memory, m': Memory, q: DmaRequest)
    requires Accepted(t.workload) && !t.workload.kind.DmaCopy? && t.phase.StoreOutput? && t.id < TASK_SLOT_COUNT
    requires StageTransfer(t) == Success(q) && Avoids(t.workload, SCRATCHPAD)
    requires AgreeOutside(m, m', Span(q.destination, q.length))
    requires Holds(t.workload, t.id, StageCount(t.workload) - 1, m0, m)
    ensures Holds(t.workload, t.id, StageCount(t.workload) - 1, m0, m')
  {
    var w := t.workload;
    StoreRequest(t, q);
    SpanSizes(w);
    ResultOutsideSlot(w, t.id);
    SlotFrame(w, t.id, m, m', ResultSpan(w));
    StoredSlot(w, t.id, StageCount(w) - 1, m0, m, m');
  }

  lemma ResultOutsideSlot(w: Workload, id: U32)
    requires Avoids(w, SCRATCHPAD) && id < TASK_SLOT_COUNT
    ensures Apart(Slot(id), ResultSpan(w))
  {
    SlotAddresses(id);
  }

  /** Before its last operation a task depends on its slot alone. */
  lemma StoredSlot(w: Workload, id: nat, k: nat, m0: Memory, m: Memory, m': Memory)
    requires Accepted(w) && !w.kind.DmaCopy? && k + 1 == StageCount(w) && Holds(w, id, k, m0, m)
    requires SameBytes(m, m', SlotBase(id), LeftBytes(w))
    requires SameBytes(m, m', SlotBase(id) + SOURCE1_OFFSET, RightBytes(w))
    requires SameBytes(m, m', SlotBase(id) + DESTINATION_OFFSET, ResultBytes(w))
    ensures Holds(w, id, k, m0, m')
  {
  }

  /** So does a command in flight. */
  lemma ComputingKeeps(t: Task, c: Command, m0: Memory, m: Memory, m': Memory)
    requires Accepted(t.workload) && PhaseFits(t.workload, Execute) && t.id < TASK_SLOT_COUNT
    requires MakeCommand(t) == Success(c) && Avoids(t.workload, SCRATCHPAD)
    requires AgreeOutside(m, m', Span(c.destination, 2 * OutputCount(CommandOperation(c))))
    requires Holds(t.workload, t.id, StageIndex(t.workload, Execute), m0, m)
    ensures Holds(t.workload, t.id, StageIndex(t.workload, Execute), m0, m')
  {
    var w := t.workload;
    LoadedBeforeExecute(w, t.id, StageIndex(w, Execute), m0, m);
    CommandFields(t, c);
    AcceptedCounts(w);
    OutputWriteFrame(w, t.id, m, m');
  }

  // ---- What an operation in flight reads ----

  /** The transfer reads only external ranges and the slot of its task. */
  lemma TransferReads(t: Task, q: DmaRequest, span: Span)
    requires Accepted(t.workload) && PhaseFits(t.workload, t.phase) && IsDmaPhase(t.phase) && t.id < TASK_SLOT_COUNT
    requires StageTransfer(t) == Success(q) && Avoids(t.workload, span) && Apart(Slot(t.id), span)
    ensures Disjoint(span.start, span.size, q.source, q.length)
  {
    if t.phase.StoreOutput? {
      StoreRequest(t, q);
      SpanSizes(t.workload);
    } else if !t.workload.kind.DmaCopy? {
      AcceptedByteCounts(t.workload);
    }
  }

  /** The command reads only the slot of its task. */
  lemma CommandReads(t: Task, c: Command, span: Span)
    requires Accepted(t.workload) && !t.workload.kind.DmaCopy? && t.id < TASK_SLOT_COUNT
    requires MakeCommand(t) == Success(c) && Apart(Slot(t.id), span)
    ensures var o := CommandOperation(c);
      && Disjoint(span.start, span.size, c.source0, 2 * LeftCount(o))
      && Disjoint(span.start, span.size, c.source1, 2 * RightCount(o))
  {
    CommandFields(t, c);
    AcceptedCounts(t.workload);
    SpanSizes(t.workload);
    if !HasSource1(t.workload) {
      NoSecondSource(t.workload);
    }
  }
}

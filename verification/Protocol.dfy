/** A scheduler call against the device is a `StepCall`: completions may arrive between any two register
    accesses, yet each one wakes exactly its owner, exactly once, and no driver call fails. */
module Protocol {
  import opened Words
  import opened Soc
  import opened DeviceModel
  import opened DriverProtocol
  import opened Tasks
  import opened Layout
  import opened SchedulerSpec
  import opened SchedulerSteps

  // ---- The link between the scheduler and the device ----

  predicate Booted(d: Device) {
    && ExecutionEnabled(d)
    && Test(Peek(d, REG_IRQ_ENABLE), IRQ_DMA_DONE_BIT) && Test(Peek(d, REG_IRQ_ENABLE), IRQ_CMD_DONE_BIT)
  }

  /** Without an owner the engine is idle; with one it signals completions and is either running the owner's
      transfer, with no completion pending, or has finished it, with DONE and the interrupt bit both set. */
  predicate DmaLinked(s: Sched, d: Device) {
    match s.dmaOwner
    case None => !DmaBusy(d)
    case Some(i) =>
      && i < |s.tasks|
      && StageTransfer(s.tasks[i]) == Success(d.dma) && DmaSignals(d)
      && if DmaBusy(d) then !Test(d.irqPending, IRQ_DMA_DONE_BIT)
         else DmaStatus(d).done && Test(d.irqPending, IRQ_DMA_DONE_BIT)
  }

  predicate CommandLinked(s: Sched, d: Device) {
    match s.accelOwner
    case None => !CommandBusy(d)
    case Some(i) =>
      && i < |s.tasks|
      && MakeCommand(s.tasks[i]) == Success(d.command)
      && if CommandBusy(d) then !Test(d.irqPending, IRQ_CMD_DONE_BIT)
         else CommandStatus(d).done && Test(d.irqPending, IRQ_CMD_DONE_BIT)
  }

  predicate Linked(s: Sched, d: Device) {
    DmaLinked(s, d) && CommandLinked(s, d) && Booted(d)
  }

  /** No transfer in flight and no completion pending: a new transfer cannot be mistaken for an old one. */
  predicate DmaClear(d: Device) {
    !DmaBusy(d) && !Test(d.irqPending, IRQ_DMA_DONE_BIT)
  }

  predicate CommandClear(d: Device) {
    !CommandBusy(d) && !Test(d.irqPending, IRQ_CMD_DONE_BIT)
  }

  /** A resource without an owner has no completion pending. */
  predicate Quiet(s: Sched, d: Device) {
    && (s.dmaOwner.None? ==> DmaClear(d))
    && (s.accelOwner.None? ==> CommandClear(d))
  }

  // ---- What an environment step and a staging write leave alone ----

  /** The registers that the hardware changes by itself. */
  predicate Volatile(o: Offset) {
    o == REG_IRQ_STATUS || o == REG_DMA_STATUS || o == REG_CMD_STATUS || o == REG_ERROR_STATUS
  }

  /** The registers that configure the SoC at boot. */
  predicate Configures(o: Offset) {
    o == REG_CTRL || o == REG_IRQ_ENABLE || o == REG_TIMER_CTRL
  }

  predicate Staging(o: Offset) {
    !Volatile(o) && !Configures(o) && o != REG_DMA_CTRL && o != REG_CMD_SUBMIT
  }

  lemma TickDmaKeeps(s: Sched, d: Device, verdict: Verdict)
    ensures var d' := TickDma(d, verdict);
      && (Linked(s, d) ==> Linked(s, d'))
      && (DmaClear(d) ==> DmaClear(d')) && (CommandClear(d) ==> CommandClear(d'))
      && (!DmaBusy(d) ==> d' == d)
      && Peek(d', REG_CMD_STATUS) == Peek(d, REG_CMD_STATUS)
      && forall o: Offset :: !Volatile(o) ==> Peek(d', o) == Peek(d, o)
  {
  }

  lemma TickAcceleratorKeeps(s: Sched, d: Device, verdict: Verdict)
    ensures var d' := TickAccelerator(d, verdict);
      && (Linked(s, d) ==> Linked(s, d'))
      && (DmaClear(d) ==> DmaClear(d')) && (CommandClear(d) ==> CommandClear(d'))
      && (!CommandBusy(d) ==> d' == d)
      && Peek(d', REG_DMA_STATUS) == Peek(d, REG_DMA_STATUS)
      && forall o: Offset :: !Volatile(o) ==> Peek(d', o) == Peek(d, o)
  {
  }

  lemma TickOthersKeep(s: Sched, d: Device, timer: bool, errors: U32)
    ensures var d' := TickErrors(TickTimer(d, timer), errors).(time := d.time + 1);
      && (Linked(s, d) ==> Linked(s, d'))
      && (DmaClear(d) ==> DmaClear(d')) && (CommandClear(d) ==> CommandClear(d'))
      && Peek(d', REG_DMA_STATUS) == Peek(d, REG_DMA_STATUS)
      && Peek(d', REG_CMD_STATUS) == Peek(d, REG_CMD_STATUS)
      && forall o: Offset :: !Volatile(o) ==> Peek(d', o) == Peek(d, o)
  {
  }

  /** What `Tick` keeps; an idle engine's status does not move. */
  lemma TickKeeps(env: Env, s: Sched, d: Device)
    ensures Linked(s, d) ==> Linked(s, Tick(env, d))
    ensures DmaClear(d) ==> DmaClear(Tick(env, d))
    ensures CommandClear(d) ==> CommandClear(Tick(env, d))
    ensures !DmaBusy(d) ==> Peek(Tick(env, d), REG_DMA_STATUS) == Peek(d, REG_DMA_STATUS)
    ensures !CommandBusy(d) ==> Peek(Tick(env, d), REG_CMD_STATUS) == Peek(d, REG_CMD_STATUS)
    ensures forall o: Offset :: !Volatile(o) ==> Peek(Tick(env, d), o) == Peek(d, o)
  {
    var step := env(d.time);
    TickDmaKeeps(s, d, step.dma);
    var d1 := TickDma(d, step.dma);
    TickAcceleratorKeeps(s, d1, step.accelerator);
    var d2 := TickAccelerator(d1, step.accelerator);
    TickOthersKeep(s, d2, step.timer, step.errors);
  }

  lemma TickKeepsRegister(env: Env, d: Device, o: Offset)
    requires !Volatile(o)
    ensures Peek(Tick(env, d), o) == Peek(d, o)
  {
    TickKeeps(env, EMPTY, d);
  }

  lemma StagingWriteKeeps(env: Env, s: Sched, d: Device, o: Offset, value: U32)
    requires Staging(o)
    ensures Linked(s, d) ==> Linked(s, Write(env, d, o, value))
    ensures DmaClear(d) ==> DmaClear(Write(env, d, o, value))
    ensures CommandClear(d) ==> CommandClear(Write(env, d, o, value))
  {
    TickKeeps(env, s, d);
    StagingPokeKeeps(s, Tick(env, d), o, value);
  }

  lemma StagingPokeKeeps(s: Sched, d: Device, o: Offset, value: U32)
    requires Staging(o)
    ensures Linked(s, d) ==> Linked(s, Poke(d, o, value))
    ensures DmaClear(d) ==> DmaClear(Poke(d, o, value))
    ensures CommandClear(d) ==> CommandClear(Poke(d, o, value))
  {
  }

  /** A staging write stores its value and leaves every other staging register alone. */
  lemma StagingWriteStores(env: Env, d: Device, o: Offset, value: U32, p: Offset)
    requires Staging(o) && Staging(p)
    ensures Peek(Write(env, d, o, value), p) == if p == o then value else Peek(d, p)
  {
    TickKeepsRegister(env, d, p);
  }

  lemma {:induction false} WriteAllKeeps(env: Env, s: Sched, d: Device, writes: seq<RegisterWrite>)
    requires forall k :: 0 <= k < |writes| ==> Staging(writes[k].offset)
    ensures Linked(s, d) ==> Linked(s, WriteAll(env, d, writes))
    ensures DmaClear(d) ==> DmaClear(WriteAll(env, d, writes))
    ensures CommandClear(d) ==> CommandClear(WriteAll(env, d, writes))
    decreases |writes|
  {
    if |writes| != 0 {
      var n := |writes| - 1;
      WriteAllKeeps(env, s, d, writes[..n]);
      StagingWriteKeeps(env, s, WriteAll(env, d, writes[..n]), writes[n].offset, writes[n].value);
    }
  }

  lemma WriteAllStores(env: Env, d: Device, writes: seq<RegisterWrite>, k: nat)
    requires forall j :: 0 <= j < |writes| ==> Staging(writes[j].offset)
    requires k < |writes|
    requires forall j :: k < j < |writes| ==> writes[j].offset != writes[k].offset
    ensures Peek(WriteAll(env, d, writes), writes[k].offset) == writes[k].value
  {
    StoredUpTo(env, d, writes, k, |writes|);
    assert writes[..|writes|] == writes;
  }

  lemma {:induction false} StoredUpTo(env: Env, d: Device, writes: seq<RegisterWrite>, k: nat, n: nat)
    requires k < n <= |writes|
    requires forall j :: 0 <= j < |writes| ==> Staging(writes[j].offset)
    requires forall j :: k < j < |writes| ==> writes[j].offset != writes[k].offset
    ensures Peek(WriteAll(env, d, writes[..n]), writes[k].offset) == writes[k].value
    decreases n
  {
    NextWrite(env, d, writes, n, writes[k].offset);
    if k < n - 1 {
      StoredUpTo(env, d, writes, k, n - 1);
    }
  }

  lemma NextWrite(env: Env, d: Device, writes: seq<RegisterWrite>, n: nat, o: Offset)
    requires 0 < n <= |writes| && Staging(writes[n - 1].offset) && Staging(o)
    ensures var last := writes[n - 1];
      Peek(WriteAll(env, d, writes[..n]), o)
      == if o == last.offset then last.value else Peek(WriteAll(env, d, writes[..n - 1]), o)
  {
    var last := writes[n - 1];
    WriteAllStep(env, d, writes, n - 1);
    StagingWriteStores(env, WriteAll(env, d, writes[..n - 1]), last.offset, last.value, o);
  }

  // ---- Clearing status ----

  lemma ClearDmaStatusKeeps(env: Env, s: Sched, d: Device)
    requires Linked(s, d) && s.dmaOwner.None?
    ensures var d' := ClearDmaStatus(env, d);
      && Linked(s, d')
      && (DmaClear(d) ==> DmaClear(d')) && (CommandClear(d) ==> CommandClear(d'))
      && (!CommandBusy(d) ==> Peek(d', REG_CMD_STATUS) == Peek(d, REG_CMD_STATUS))
  {
    TickKeeps(env, s, d);
  }

  lemma ClearCommandStatusKeeps(env: Env, s: Sched, d: Device)
    requires Linked(s, d) && s.accelOwner.None?
    ensures var d' := ClearCommandStatus(env, d);
      && Linked(s, d')
      && (DmaClear(d) ==> DmaClear(d')) && (CommandClear(d) ==> CommandClear(d'))
  {
    TickKeeps(env, s, d);
  }

  // ---- Starting an operation ----

  /** Starting a nonempty transfer on a clear engine succeeds and latches exactly that transfer. */
  lemma DmaStartSucceeds(env: Env, s: Sched, d: Device, r: DmaRequest)
    requires Linked(s, d) && s.dmaOwner.None? && DmaClear(d) && r.length != 0
    ensures var o := DmaStart(env, d, r);
      && o.thrown == None
      && DmaInFlight(o.device) && o.device.dma == r
      && CommandLinked(s, o.device) && Booted(o.device)
  {
    TickKeeps(env, s, d);
    var d1 := Tick(env, d);
    TransferStagingKeeps(env, s, d1, r);
    StartLatches(env, s, WriteAll(env, ClearDmaStatus(env, d1), DmaWrites(r)));
  }

  lemma TransferStagingKeeps(env: Env, s: Sched, d: Device, r: DmaRequest)
    requires Linked(s, d) && s.dmaOwner.None? && DmaClear(d)
    ensures var d' := WriteAll(env, ClearDmaStatus(env, d), DmaWrites(r));
      Linked(s, d') && DmaClear(d') && StagedDma(d') == r
  {
    ClearDmaStatusKeeps(env, s, d);
    ListedTransferIsStaged(env, s, ClearDmaStatus(env, d), DmaWrites(r), r);
  }

  predicate StagesTransfer(writes: seq<RegisterWrite>, r: DmaRequest) {
    && |writes| == 3
    && writes[0] == RegisterWrite(REG_DMA_SRC_ADDR, r.source)
    && writes[1] == RegisterWrite(REG_DMA_DST_ADDR, r.destination)
    && writes[2] == RegisterWrite(REG_DMA_LEN_BYTES, r.length)
  }

  lemma ListedTransferIsStaged(env: Env, s: Sched, d: Device, writes: seq<RegisterWrite>, r: DmaRequest)
    requires Linked(s, d) && DmaClear(d) && StagesTransfer(writes, r)
    ensures var d' := WriteAll(env, d, writes); Linked(s, d') && DmaClear(d') && StagedDma(d') == r
  {
    WriteAllKeeps(env, s, d, writes);
    TransferIsStaged(env, d, writes, r);
  }

  /** Writes to different staging registers. */
  predicate StagesEach(writes: seq<RegisterWrite>) {
    && (forall k :: 0 <= k < |writes| ==> Staging(writes[k].offset))
    && forall j, k :: 0 <= j < k < |writes| ==> writes[j].offset != writes[k].offset
  }

  lemma AllAreStored(env: Env, d: Device, writes: seq<RegisterWrite>)
    requires StagesEach(writes)
    ensures forall k :: 0 <= k < |writes| ==> Peek(WriteAll(env, d, writes), writes[k].offset) == writes[k].value
  {
    forall k | 0 <= k < |writes|
      ensures Peek(WriteAll(env, d, writes), writes[k].offset) == writes[k].value
    {
      WriteAllStores(env, d, writes, k);
    }
  }

  lemma TransferIsStaged(env: Env, d: Device, writes: seq<RegisterWrite>, r: DmaRequest)
    requires StagesTransfer(writes, r)
    ensures StagedDma(WriteAll(env, d, writes)) == r
  {
    AllAreStored(env, d, writes);
    var d' := WriteAll(env, d, writes);
    assert Peek(d', writes[0].offset) == r.source;
    assert Peek(d', writes[1].offset) == r.destination;
    assert Peek(d', writes[2].offset) == r.length;
  }

  lemma StartLatches(env: Env, s: Sched, d: Device)
    requires Linked(s, d) && s.dmaOwner.None? && DmaClear(d)
    ensures var d' := Write(env, d, REG_DMA_CTRL,
                            Or(RegisterBit(DMA_CTRL_START_BIT), RegisterBit(DMA_CTRL_IRQ_ENABLE_BIT)));
      && DmaInFlight(d') && d'.dma == StagedDma(d)
      && CommandLinked(s, d') && Booted(d')
  {
    TickKeeps(env, s, d);
  }

  lemma CommandSubmitSucceeds(env: Env, s: Sched, d: Device, c: Command)
    requires Linked(s, d) && s.accelOwner.None? && CommandClear(d) && c.opcode != CMD_OP_INVALID
    ensures var o := AcceleratorSubmit(env, d, c);
      && o.thrown == None
      && CommandBusy(o.device) && o.device.command == c && !Test(o.device.irqPending, IRQ_CMD_DONE_BIT)
      && DmaLinked(s, o.device) && Booted(o.device)
  {
    TickKeeps(env, s, d);
    var d1 := Tick(env, d);
    CommandIsListed(c);
    CommandStagingKeeps(env, s, d1, CommandWrites(c), c);
    SubmitLatches(env, s, WriteAll(env, ClearCommandStatus(env, d1), CommandWrites(c)));
  }

  lemma CommandIsListed(c: Command)
    ensures StartsCommand(CommandWrites(c), c) && EndsCommand(CommandWrites(c), c)
  {
  }

  lemma CommandStagingKeeps(env: Env, s: Sched, d: Device, writes: seq<RegisterWrite>, c: Command)
    requires Linked(s, d) && s.accelOwner.None? && CommandClear(d) && StartsCommand(writes, c) && EndsCommand(writes, c)
    ensures var d' := WriteAll(env, ClearCommandStatus(env, d), writes);
      Linked(s, d') && CommandClear(d') && StagedCommand(d') == c
  {
    ClearCommandStatusKeeps(env, s, d);
    ListedCommandIsStaged(env, s, ClearCommandStatus(env, d), writes, c);
  }

  lemma ListedCommandIsStaged(env: Env, s: Sched, d: Device, writes: seq<RegisterWrite>, c: Command)
    requires Linked(s, d) && CommandClear(d) && StartsCommand(writes, c) && EndsCommand(writes, c)
    ensures var d' := WriteAll(env, d, writes); Linked(s, d') && CommandClear(d') && StagedCommand(d') == c
  {
    CommandStagesEach(writes, c);
    WriteAllKeeps(env, s, d, writes);
    ListedIsStaged(env, d, writes, c);
  }

  lemma ListedIsStaged(env: Env, d: Device, writes: seq<RegisterWrite>, c: Command)
    requires StartsCommand(writes, c) && EndsCommand(writes, c)
    ensures StagedCommand(WriteAll(env, d, writes)) == c
  {
    CommandStagesEach(writes, c);
    AllAreStored(env, d, writes);
    StagedFields(WriteAll(env, d, writes), writes, c);
  }

  lemma CommandStagesEach(writes: seq<RegisterWrite>, c: Command)
    requires StartsCommand(writes, c) && EndsCommand(writes, c)
    ensures StagesEach(writes)
  {
  }

  lemma StagedFields(d: Device, writes: seq<RegisterWrite>, c: Command)
    requires StartsCommand(writes, c) && EndsCommand(writes, c)
    requires forall k :: 0 <= k < |writes| ==> Peek(d, writes[k].offset) == writes[k].value
    ensures StagedCommand(d) == c
  {
    assert Peek(d, writes[0].offset) == c.opcode;
    assert Peek(d, writes[1].offset) == c.source0;
    assert Peek(d, writes[2].offset) == c.source1;
    assert Peek(d, writes[3].offset) == c.destination;
    assert Peek(d, writes[4].offset) == c.length;
    assert Peek(d, writes[5].offset) == c.rows;
    assert Peek(d, writes[6].offset) == c.columns;
    assert Peek(d, writes[7].offset) == c.inner;
    assert Peek(d, writes[8].offset) == c.flags;
    assert Peek(d, writes[9].offset) == c.priority;
    assert Peek(d, writes[10].offset) == c.commandId;
  }

  lemma SubmitLatches(env: Env, s: Sched, d: Device)
    requires Linked(s, d) && s.accelOwner.None? && CommandClear(d)
    ensures var d' := Write(env, d, REG_CMD_SUBMIT, RegisterBit(CMD_SUBMIT_BIT));
      && CommandBusy(d') && d'.command == StagedCommand(d) && !Test(d'.irqPending, IRQ_CMD_DONE_BIT)
      && DmaLinked(s, d') && Booted(d')
  {
    TickKeeps(env, s, d);
  }

  // ---- Serving the sampled interrupts ----

  /** The completions visible in the device at the moment the pending word is read. */
  function Observed(d: Device): Events {
    Events(
      if Test(d.irqPending, IRQ_DMA_DONE_BIT) then Some(DmaStatus(d)) else None,
      if Test(d.irqPending, IRQ_CMD_DONE_BIT) then Some(CommandStatus(d)) else None,
      Test(d.irqPending, IRQ_TIMER_BIT))
  }

  const NOTHING := Events(None, None, false)

  /** What is known while the sample `pending` is being served: a resource that still has no owner and
      was not sampled has no completion pending. */
  predicate DmaServing(s: Sched, d: Device, pending: U32) {
    s.dmaOwner.None? && !Test(pending, IRQ_DMA_DONE_BIT) ==> DmaClear(d)
  }

  predicate CommandServing(s: Sched, d: Device, pending: U32) {
    s.accelOwner.None? && !Test(pending, IRQ_CMD_DONE_BIT) ==> CommandClear(d)
  }

  /** Changing one task's progress leaves the link of the other resource's owner alone. */
  lemma CommandLinkSurvivesDma(s: Sched, event: Option<CompletionStatus>, d: Device)
    requires Structure(s) && CommandLinked(s, d)
    ensures CommandLinked(ServeDma(s, event), d) && ServeDma(s, event).accelOwner == s.accelOwner
  {
    if event.Some? && s.dmaOwner.Some? {
      assert TaskOk(s, s.dmaOwner.value);
    }
  }

  lemma DmaLinkSurvivesAccelerator(s: Sched, event: Option<CompletionStatus>, d: Device)
    requires Structure(s) && DmaLinked(s, d)
    ensures DmaLinked(ServeAccelerator(s, event), d) && ServeAccelerator(s, event).dmaOwner == s.dmaOwner
  {
    if event.Some? && s.accelOwner.Some? {
      assert TaskOk(s, s.accelOwner.value);
    }
  }

  lemma ServiceDmaExact(env: Env, s: Sched, d: Device)
    requires Structure(s) && Linked(s, d)
    ensures var o := ServiceDma(env, System(s, d), d.irqPending);
      && o.thrown == None
      && o.system.sched == ServeDma(s, Observed(d).dma)
      && Structure(o.system.sched) && Linked(o.system.sched, o.system.device)
      && DmaServing(o.system.sched, o.system.device, d.irqPending)
      && CommandServing(o.system.sched, o.system.device, d.irqPending)
      && (Test(d.irqPending, IRQ_DMA_DONE_BIT) ==> o.system.sched.dmaOwner == None)
      && (!CommandBusy(d) ==> Peek(o.system.device, REG_CMD_STATUS) == Peek(d, REG_CMD_STATUS))
  {
    var event := Observed(d).dma;
    ServeDmaKeepsStructure(s, event);
    if event.Some? {
      if s.dmaOwner.Some? {
        TickKeeps(env, s, d);
        CommandLinkSurvivesDma(s, event, Tick(env, d));
        ClearDmaStatusKeeps(env, ServeDma(s, event), Tick(env, d));
      } else {
        ClearDmaStatusKeeps(env, s, d);
      }
    }
  }

  /** Every sampled completion has been handed to its owner, and nothing else has been touched. */
  predicate Drained(s: Sched, d: Device, pending: U32) {
    && Linked(s, d) && DmaServing(s, d, pending) && CommandServing(s, d, pending)
    && (Test(pending, IRQ_DMA_DONE_BIT) ==> s.dmaOwner == None)
    && (Test(pending, IRQ_CMD_DONE_BIT) ==> s.accelOwner == None)
  }

  lemma ServiceCommandExact(env: Env, s: Sched, d: Device, pending: U32)
    requires Structure(s) && Linked(s, d)
    requires DmaServing(s, d, pending) && CommandServing(s, d, pending)
    requires Test(pending, IRQ_DMA_DONE_BIT) ==> s.dmaOwner == None
    requires Test(pending, IRQ_CMD_DONE_BIT) ==> !CommandBusy(d)
    ensures var event := if Test(pending, IRQ_CMD_DONE_BIT) then Some(CommandStatus(d)) else None;
      var sys := ServiceCommand(env, System(s, d), pending);
      && sys.sched == ServeAccelerator(s, event)
      && Structure(sys.sched) && Drained(sys.sched, sys.device, pending)
  {
    var event := if Test(pending, IRQ_CMD_DONE_BIT) then Some(CommandStatus(d)) else None;
    ServeAcceleratorKeepsStructure(s, event);
    DmaLinkSurvivesAccelerator(s, event, d);
    if event.Some? {
      if s.accelOwner.Some? {
        TickKeeps(env, s, d);
        DmaLinkSurvivesAccelerator(s, event, Tick(env, d));
        ClearCommandStatusKeeps(env, ServeAccelerator(s, event), Tick(env, d));
      } else {
        ClearCommandStatusKeeps(env, s, d);
      }
    }
  }

  lemma TickKeepsServing(env: Env, s: Sched, d: Device, pending: U32)
    requires Linked(s, d) && DmaServing(s, d, pending) && CommandServing(s, d, pending)
    ensures Linked(s, Tick(env, d)) && DmaServing(s, Tick(env, d), pending) && CommandServing(s, Tick(env, d), pending)
  {
    TickKeeps(env, s, d);
  }

  lemma ErrorWriteKeepsServing(s: Sched, d: Device, pending: U32, errors: U32)
    requires Linked(s, d) && DmaServing(s, d, pending) && CommandServing(s, d, pending)
    ensures var d' := Poke(d, REG_ERROR_STATUS, errors);
      Linked(s, d') && DmaServing(s, d', pending) && CommandServing(s, d', pending)
  {
  }

  lemma ServiceErrorsKeeps(env: Env, s: Sched, d: Device, pending: U32)
    requires Linked(s, d) && DmaServing(s, d, pending) && CommandServing(s, d, pending)
    ensures var d' := ServiceErrors(env, System(s, d), pending).device;
      Linked(s, d') && DmaServing(s, d', pending) && CommandServing(s, d', pending)
  {
    var d1 := Tick(env, d);
    TickKeepsServing(env, s, d, pending);
    TickKeepsServing(env, s, d1, pending);
    ErrorWriteKeepsServing(s, Tick(env, d1), pending, Peek(d1, REG_ERROR_STATUS));
  }

  lemma AcknowledgePoke(s: Sched, d: Device, pending: U32, mask: U32)
    requires Linked(s, d) && DmaServing(s, d, pending) && CommandServing(s, d, pending)
    requires Test(pending, IRQ_DMA_DONE_BIT) ==> s.dmaOwner == None
    requires Test(pending, IRQ_CMD_DONE_BIT) ==> s.accelOwner == None
    requires Test(mask, IRQ_DMA_DONE_BIT) == Test(pending, IRQ_DMA_DONE_BIT)
    requires Test(mask, IRQ_CMD_DONE_BIT) == Test(pending, IRQ_CMD_DONE_BIT)
    ensures var d' := Poke(d, REG_IRQ_STATUS, mask); Linked(s, d') && Quiet(s, d')
  {
  }

  /** Acknowledging exactly the sampled bits makes every free resource quiet and loses no completion. */
  lemma AcknowledgeExact(env: Env, s: Sched, d: Device, pending: U32)
    requires Linked(s, d) && DmaServing(s, d, pending) && CommandServing(s, d, pending)
    requires Test(pending, IRQ_DMA_DONE_BIT) ==> s.dmaOwner == None
    requires Test(pending, IRQ_CMD_DONE_BIT) ==> s.accelOwner == None
    ensures var d' := Acknowledge(env, System(s, d), Acknowledged(pending)).device;
      Linked(s, d') && Quiet(s, d')
  {
    var mask := Acknowledged(pending);
    if mask == 0 {
      ZeroHasNoBits(IRQ_DMA_DONE_BIT);
      ZeroHasNoBits(IRQ_CMD_DONE_BIT);
      assert !Test(pending, IRQ_DMA_DONE_BIT) && !Test(pending, IRQ_CMD_DONE_BIT);
    } else {
      TickKeepsServing(env, s, d, pending);
      AcknowledgePoke(s, Tick(env, d), pending, mask);
    }
  }

  /** Serving a sample is exactly serving the completions it shows: nothing is lost, nothing is spurious. */
  lemma ServiceSampledExact(env: Env, s: Sched, d: Device)
    requires Structure(s) && Linked(s, d)
    ensures var o := ServiceSampled(env, System(s, d), d.irqPending);
      var ev := Observed(d);
      && o.thrown == None
      && o.system.sched == ServeTimer(ServeAccelerator(ServeDma(s, ev.dma), ev.accelerator), ev.timer)
      && Structure(o.system.sched) && Linked(o.system.sched, o.system.device)
      && Quiet(o.system.sched, o.system.device)
  {
    var pending := d.irqPending;
    ServiceDmaExact(env, s, d);
    var o1 := ServiceDma(env, System(s, d), pending).system;
    assert Test(pending, IRQ_CMD_DONE_BIT) ==> !CommandBusy(d) && CommandStatus(o1.device) == CommandStatus(d);
    ServiceOthersExact(env, o1.sched, o1.device, pending);
  }

  lemma DrainedIgnoresCounters(s: Sched, s': Sched, d: Device, pending: U32)
    requires SameTasks(s, s') && Drained(s, d, pending)
    ensures Drained(s', d, pending)
  {
  }

  lemma ErrorsThenAcknowledge(env: Env, s: Sched, d: Device, pending: U32)
    requires Drained(s, d, pending)
    ensures var d' := Acknowledge(env, ServiceErrors(env, System(s, d), pending), Acknowledged(pending)).device;
      Linked(s, d') && Quiet(s, d')
  {
    ServiceErrorsKeeps(env, s, d, pending);
    AcknowledgeExact(env, s, ServiceErrors(env, System(s, d), pending).device, pending);
  }

  lemma TimerThenErrors(env: Env, s: Sched, d: Device, pending: U32)
    requires Structure(s) && Drained(s, d, pending)
    ensures var sys := Acknowledge(env, ServiceErrors(env, ServiceTimer(System(s, d), pending), pending),
                                   Acknowledged(pending));
      && sys.sched == ServeTimer(s, Test(pending, IRQ_TIMER_BIT))
      && Structure(sys.sched) && Linked(sys.sched, sys.device) && Quiet(sys.sched, sys.device)
  {
    var s' := ServeTimer(s, Test(pending, IRQ_TIMER_BIT));
    CountersKeepStructure(s, s');
    DrainedIgnoresCounters(s, s', d, pending);
    ErrorsThenAcknowledge(env, s', d, pending);
  }

  lemma ServiceOthersExact(env: Env, s: Sched, d: Device, pending: U32)
    requires Structure(s) && Linked(s, d)
    requires DmaServing(s, d, pending) && CommandServing(s, d, pending)
    requires Test(pending, IRQ_DMA_DONE_BIT) ==> s.dmaOwner == None
    requires Test(pending, IRQ_CMD_DONE_BIT) ==> !CommandBusy(d)
    ensures var event := if Test(pending, IRQ_CMD_DONE_BIT) then Some(CommandStatus(d)) else None;
      var sys := ServiceOthers(env, System(s, d), pending);
      && sys.sched == ServeTimer(ServeAccelerator(s, event), Test(pending, IRQ_TIMER_BIT))
      && Structure(sys.sched) && Linked(sys.sched, sys.device) && Quiet(sys.sched, sys.device)
  {
    ServiceCommandExact(env, s, d, pending);
    var o := ServiceCommand(env, System(s, d), pending);
    TimerThenErrors(env, o.sched, o.device, pending);
  }

  // ---- Dispatching ----

  /** A transfer in flight that will signal its end, with no completion pending: whatever was pending before
      cannot complete it. */
  predicate DmaInFlight(d: Device) {
    DmaBusy(d) && DmaSignals(d) && !Test(d.irqPending, IRQ_DMA_DONE_BIT)
  }

  predicate CommandInFlight(d: Device) {
    CommandBusy(d) && !Test(d.irqPending, IRQ_CMD_DONE_BIT)
  }

  /** The operation that the selection has launched, if any, is in flight with no completion pending. */
  predicate LaunchInFlight(s: Sched, d: Device) {
    match SelectReady(s)
    case None => true
    case Some(i) => if s.tasks[i].phase.Execute? then CommandInFlight(d) else DmaInFlight(d)
  }

  lemma CommandLinkSurvivesStart(s: Sched, i: nat, d: Device)
    requires Structure(s) && i < |s.tasks| && Candidate(s, i) && IsDmaPhase(s.tasks[i].phase)
    requires CommandLinked(s, d)
    ensures CommandLinked(Launch(s, i), d)
  {
    assert TaskOk(s, i);
  }

  lemma DmaLinkSurvivesStart(s: Sched, i: nat, d: Device)
    requires Structure(s) && i < |s.tasks| && Candidate(s, i) && s.tasks[i].phase.Execute?
    requires DmaLinked(s, d)
    ensures DmaLinked(Launch(s, i), d)
  {
    assert TaskOk(s, i);
  }

  lemma DispatchDmaExact(env: Env, s: Sched, d: Device, i: nat)
    requires Structure(s) && Linked(s, d) && Quiet(s, d)
    requires i < |s.tasks| && Candidate(s, i) && IsDmaPhase(s.tasks[i].phase)
    ensures var o := Dispatch(env, System(s, d), i);
      && o.thrown == None && o.system.sched == Launch(s, i)
      && Linked(o.system.sched, o.system.device)
      && DmaInFlight(o.system.device)
  {
    assert TaskOk(s, i);
    AcceptedTransfer(s.tasks[i]);
    var r := StageTransfer(s.tasks[i]).value;
    DmaStartSucceeds(env, s, d, r);
    var o := DmaStart(env, d, r);
    CommandLinkSurvivesStart(s, i, o.device);
  }

  lemma DispatchAcceleratorIsLaunch(env: Env, s: Sched, d: Device, i: nat, c: Command)
    requires i < |s.tasks| && s.tasks[i].phase.Execute? && MakeCommand(s.tasks[i]) == Success(c)
    requires AcceleratorSubmit(env, d, c).thrown == None
    ensures Dispatch(env, System(s, d), i) == Outcome(System(Launch(s, i), AcceleratorSubmit(env, d, c).device), None)
  {
    var running := StartRunning(s, i);
    CommandIgnoresState(s.tasks[i], running.tasks[i]);
    assert DispatchAccelerator(env, System(running, d), i)
        == Outcome(System(BlockOnAccelerator(running, i), AcceleratorSubmit(env, d, c).device), None);
  }

  lemma CommandIgnoresState(t: Task, t': Task)
    requires t'.workload == t.workload && t'.id == t.id && t'.priority == t.priority
    ensures MakeCommand(t') == MakeCommand(t)
  {
  }

  lemma LaunchedCommandLinked(s: Sched, d: Device, i: nat)
    requires Indexed(s) && i < |s.tasks| && s.tasks[i].phase.Execute?
    requires MakeCommand(s.tasks[i]) == Success(d.command)
    requires CommandBusy(d) && !Test(d.irqPending, IRQ_CMD_DONE_BIT)
    ensures CommandLinked(Launch(s, i), d)
  {
    var s' := Launch(s, i);
    assert s'.accelOwner == Some(i);
    CommandIgnoresState(s.tasks[i], s'.tasks[i]);
  }

  lemma DispatchAcceleratorExact(env: Env, s: Sched, d: Device, i: nat)
    requires Structure(s) && Linked(s, d) && Quiet(s, d)
    requires i < |s.tasks| && Candidate(s, i) && s.tasks[i].phase.Execute?
    ensures var o := Dispatch(env, System(s, d), i);
      && o.thrown == None && o.system.sched == Launch(s, i)
      && Linked(o.system.sched, o.system.device)
      && CommandInFlight(o.system.device)
  {
    assert TaskOk(s, i);
    AcceptedCommandExists(s.tasks[i]);
    var c := MakeCommand(s.tasks[i]).value;
    CommandSubmitSucceeds(env, s, d, c);
    var d' := AcceleratorSubmit(env, d, c).device;
    DispatchAcceleratorIsLaunch(env, s, d, i, c);
    LaunchedCommandLinked(s, d', i);
    DmaLinkSurvivesStart(s, i, d');
  }

  lemma SelectAndDispatchExact(env: Env, s: Sched, d: Device)
    requires Structure(s) && Linked(s, d) && Quiet(s, d)
    ensures var sys := SelectAndDispatch(env, System(s, d));
      sys.sched == Proceed(s) && Linked(sys.sched, sys.device) && LaunchInFlight(s, sys.device)
  {
    match SelectReady(s)
    case None =>
    case Some(i) =>
      assert TaskOk(s, i);
      if s.tasks[i].phase.Execute? {
        DispatchAcceleratorExact(env, s, d, i);
      } else {
        DispatchDmaExact(env, s, d, i);
      }
  }

  // ---- The whole call ----

  /** The completions a call observes: those visible when it reads the pending word, provided the
      interrupt line was already up when it looked. */
  function CallEvents(env: Env, d: Device): Events {
    var d1 := Tick(env, d);
    if IrqAsserted(d1) then Observed(Tick(env, d1)) else NOTHING
  }

  lemma LineDownIsQuiet(s: Sched, d: Device)
    requires Linked(s, d) && !IrqAsserted(d)
    ensures Quiet(s, d)
  {
    ZeroHasNoBits(IRQ_DMA_DONE_BIT);
    ZeroHasNoBits(IRQ_CMD_DONE_BIT);
    assert !Test(And(d.irqPending, Peek(d, REG_IRQ_ENABLE)), IRQ_DMA_DONE_BIT);
    assert !Test(And(d.irqPending, Peek(d, REG_IRQ_ENABLE)), IRQ_CMD_DONE_BIT);
  }

  lemma ServiceIfAssertedExact(env: Env, s: Sched, d: Device)
    requires Structure(s) && Linked(s, d)
    ensures var ev := if IrqAsserted(d) then Observed(Tick(env, d)) else NOTHING;
      var o := ServiceIfAsserted(env, System(s, d));
      && o.thrown == None
      && o.system.sched == ServeTimer(ServeAccelerator(ServeDma(s, ev.dma), ev.accelerator), ev.timer)
      && Structure(o.system.sched) && Linked(o.system.sched, o.system.device)
      && Quiet(o.system.sched, o.system.device)
  {
    if IrqAsserted(d) {
      TickKeeps(env, s, d);
      ServiceSampledExact(env, s, Tick(env, d));
    } else {
      LineDownIsQuiet(s, d);
    }
  }

  /** No lost and no spurious wakeups: whatever the environment does between register accesses, a call
      ends without an exception, its effect on the tasks is exactly `StepCall` on the completions it
      observed, the link between scheduler and device holds again, and an operation it has launched
      starts with no completion pending. */
  lemma RunOnceExact(env: Env, s: Sched, d: Device)
    requires Structure(s) && Linked(s, d)
    ensures var o := RunOnce(env, System(s, d));
      && o.thrown == None
      && o.system.sched == StepCall(s, CallEvents(env, d))
      && Structure(o.system.sched) && Linked(o.system.sched, o.system.device)
      && LaunchInFlight(Served(s, CallEvents(env, d)), o.system.device)
  {
    var s1 := CountCall(s);
    CountersKeepStructure(s, s1);
    TickKeeps(env, s1, d);
    var d1 := Tick(env, d);
    LinkIgnoresCounters(s, s1, d);
    ServiceIfAssertedExact(env, s1, d1);
    var o := ServiceIfAsserted(env, System(s1, d1));
    SelectAndDispatchExact(env, o.system.sched, o.system.device);
    ProceedKeepsStructure(o.system.sched);
  }

  lemma LinkIgnoresCounters(s: Sched, s': Sched, d: Device)
    requires SameTasks(s, s') && Linked(s, d)
    ensures Linked(s', d)
  {
  }
}

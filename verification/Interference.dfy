/** An induction principle for calls under interference: a predicate on scheduler and device that
    survives single hardware completions, wakeups and launches survives every scheduler call,
    whatever the environment does between its register accesses. */
module Interference {
  import opened Words
  import opened Soc
  import opened DeviceModel
  import opened DriverProtocol
  import opened Tasks
  import opened Layout
  import opened SchedulerSpec
  import opened SchedulerSteps
  import opened Protocol

  type Property = (Sched, Device) -> bool

  // ---- The single moves ----

  /** Everything that happens during a call, one thing at a time: the environment takes a step, a finished
      operation wakes its owner, a task starts an operation, or nothing visible happens. */
  datatype Move =
    | HardwareTicks
    | DmaWakes
    | AcceleratorWakes
    | DmaLaunches(task: nat)
    | AcceleratorLaunches(task: nat)
    | Unseen

  predicate Sound(s: Sched, d: Device) {
    Structure(s) && Linked(s, d)
  }

  predicate SameLedger(s: Sched, s': Sched) {
    SameTasks(s, s') && s'.dispatchOrder == s.dispatchOrder && s'.completionOrder == s.completionOrder
  }

  predicate SameHistory(d: Device, d': Device) {
    d'.retired == d.retired && d'.events == d.events
  }

  /** The registers written at boot are the same. */
  predicate SameConfiguration(d: Device, d': Device) {
    && Peek(d', REG_CTRL) == Peek(d, REG_CTRL) && Peek(d', REG_IRQ_ENABLE) == Peek(d, REG_IRQ_ENABLE)
    && Peek(d', REG_TIMER_CTRL) == Peek(d, REG_TIMER_CTRL)
  }

  /** The DMA engine shows the same status and has latched the same transfer. */
  predicate SameDma(d: Device, d': Device) {
    Peek(d', REG_DMA_STATUS) == Peek(d, REG_DMA_STATUS) && d'.dma == d.dma && d'.dmaSince == d.dmaSince
  }

  predicate SameCommand(d: Device, d': Device) {
    Peek(d', REG_CMD_STATUS) == Peek(d, REG_CMD_STATUS) && d'.command == d.command && d'.commandSince == d.commandSince
  }

  /** The two devices have the same history and show the same for every owned resource. */
  predicate SameProgress(s: Sched, d: Device, d': Device) {
    && SameHistory(d, d')
    && (s.dmaOwner.Some? ==> SameDma(d, d'))
    && (s.accelOwner.Some? ==> SameCommand(d, d'))
  }

  predicate Moves(env: Env, m: Move, s: Sched, d: Device, s': Sched, d': Device)
    requires Sound(s, d)
  {
    match m
    case HardwareTicks => s' == s && d' == Tick(env, d)
    case DmaWakes => s.dmaOwner.Some? && !DmaBusy(d) && s' == ServeDma(s, Some(DmaStatus(d))) && d' == d
    case AcceleratorWakes =>
      s.accelOwner.Some? && !CommandBusy(d) && s' == ServeAccelerator(s, Some(CommandStatus(d))) && d' == d
    case DmaLaunches(i) =>
      && i < |s.tasks| && Candidate(s, i) && IsDmaPhase(s.tasks[i].phase) && s' == Launch(s, i)
      && d'.time == d.time && SameHistory(d, d') && SameCommand(d, d') && SameConfiguration(d, d')
      && DmaBusy(d') && d'.dmaSince == |d.events|
    case AcceleratorLaunches(i) =>
      && i < |s.tasks| && Candidate(s, i) && s.tasks[i].phase.Execute? && s' == Launch(s, i)
      && d'.time == d.time && SameHistory(d, d') && SameDma(d, d') && SameConfiguration(d, d')
      && CommandBusy(d') && d'.commandSince == |d.events|
    case Unseen => SameLedger(s, s') && SameProgress(s, d, d') && SameConfiguration(d, d') && d'.time == d.time
  }

  /** Every single move keeps the property. */
  ghost predicate Stable(env: Env, P: Property) {
    forall m, s, d, s', d' :: Sound(s, d) && Moves(env, m, s, d, s', d') && P(s, d) ==> P(s', d')
  }

  // ---- Register accesses ----

  lemma TickSurvives(P: Property, env: Env, s: Sched, d: Device)
    requires Stable(env, P) && Sound(s, d) && P(s, d)
    ensures Sound(s, Tick(env, d)) && P(s, Tick(env, d))
  {
    TickKeeps(env, s, d);
    assert Moves(env, HardwareTicks, s, d, s, Tick(env, d));
  }

  /** An environment step in its parts: a DMA completion, a command completion, and nothing else visible. */
  lemma TickParts(env: Env, s: Sched, d: Device)
    requires Sound(s, d)
    ensures var d1 := TickDma(d, env(d.time).dma); var d2 := TickAccelerator(d1, env(d.time).accelerator);
      Sound(s, d1) && Sound(s, d2) && SameProgress(s, d2, Tick(env, d))
  {
    var step := env(d.time);
    TickDmaKeeps(s, d, step.dma);
    var d1 := TickDma(d, step.dma);
    TickAcceleratorKeeps(s, d1, step.accelerator);
    OtherTicksAreUnseen(s, TickAccelerator(d1, step.accelerator), step.timer, step.errors, d.time + 1);
  }

  lemma OtherTicksAreUnseen(s: Sched, d: Device, timer: bool, errors: U32, time: nat)
    ensures SameProgress(s, d, TickErrors(TickTimer(d, timer), errors).(time := time))
  {
  }

  /** A write that starts nothing and clears no owned status. */
  predicate Harmless(s: Sched, o: Offset) {
    && o != REG_DMA_CTRL && o != REG_CMD_SUBMIT && !Configures(o)
    && (o == REG_DMA_STATUS ==> s.dmaOwner.None?)
    && (o == REG_CMD_STATUS ==> s.accelOwner.None?)
  }

  lemma HarmlessPoke(env: Env, s: Sched, d: Device, o: Offset, value: U32)
    requires Sound(s, d) && Harmless(s, o)
    ensures Moves(env, Unseen, s, d, s, Poke(d, o, value))
  {
  }

  lemma WriteSurvives(P: Property, env: Env, s: Sched, d: Device, o: Offset, value: U32)
    requires Stable(env, P) && Sound(s, d) && P(s, d) && Harmless(s, o)
    ensures P(s, Write(env, d, o, value))
  {
    TickSurvives(P, env, s, d);
    HarmlessPoke(env, s, Tick(env, d), o, value);
  }

  lemma {:induction false} WriteAllSurvives(P: Property, env: Env, s: Sched, d: Device, writes: seq<RegisterWrite>)
    requires Stable(env, P) && Sound(s, d) && P(s, d)
    requires forall k :: 0 <= k < |writes| ==> Staging(writes[k].offset)
    ensures Sound(s, WriteAll(env, d, writes)) && P(s, WriteAll(env, d, writes))
    decreases |writes|
  {
    if |writes| != 0 {
      var n := |writes| - 1;
      WriteAllSurvives(P, env, s, d, writes[..n]);
      var before := WriteAll(env, d, writes[..n]);
      WriteSurvives(P, env, s, before, writes[n].offset, writes[n].value);
      StagingWriteKeeps(env, s, before, writes[n].offset, writes[n].value);
    }
  }

  lemma ClearDmaStatusSurvives(P: Property, env: Env, s: Sched, d: Device)
    requires Stable(env, P) && Sound(s, d) && P(s, d) && s.dmaOwner.None?
    ensures Sound(s, ClearDmaStatus(env, d)) && P(s, ClearDmaStatus(env, d))
  {
    ClearDmaStatusKeeps(env, s, d);
    WriteSurvives(P, env, s, d, REG_DMA_STATUS,
                  Or(RegisterBit(DMA_STATUS_DONE_BIT), RegisterBit(DMA_STATUS_ERROR_BIT)));
  }

  lemma ClearCommandStatusSurvives(P: Property, env: Env, s: Sched, d: Device)
    requires Stable(env, P) && Sound(s, d) && P(s, d) && s.accelOwner.None?
    ensures Sound(s, ClearCommandStatus(env, d)) && P(s, ClearCommandStatus(env, d))
  {
    ClearCommandStatusKeeps(env, s, d);
    WriteSurvives(P, env, s, d, REG_CMD_STATUS,
                  Or(RegisterBit(CMD_STATUS_DONE_BIT), RegisterBit(CMD_STATUS_ERROR_BIT)));
  }

  // ---- Serving ----

  lemma ServeDmaSound(env: Env, s: Sched, d: Device)
    requires Sound(s, d) && s.dmaOwner.Some? && !DmaBusy(d)
    ensures var s' := ServeDma(s, Some(DmaStatus(d)));
      Moves(env, DmaWakes, s, d, s', d) && Sound(s', d) && s'.dmaOwner.None?
  {
    ServeDmaKeepsStructure(s, Some(DmaStatus(d)));
    CommandLinkSurvivesDma(s, Some(DmaStatus(d)), d);
  }

  lemma ServeAcceleratorSound(env: Env, s: Sched, d: Device)
    requires Sound(s, d) && s.accelOwner.Some? && !CommandBusy(d)
    ensures var s' := ServeAccelerator(s, Some(CommandStatus(d)));
      Moves(env, AcceleratorWakes, s, d, s', d) && Sound(s', d) && s'.accelOwner.None?
  {
    ServeAcceleratorKeepsStructure(s, Some(CommandStatus(d)));
    DmaLinkSurvivesAccelerator(s, Some(CommandStatus(d)), d);
  }

  lemma ServiceDmaSurvives(P: Property, env: Env, s: Sched, d: Device)
    requires Stable(env, P) && Sound(s, d) && P(s, d)
    ensures var o := ServiceDma(env, System(s, d), d.irqPending).system; P(o.sched, o.device)
  {
    if Test(d.irqPending, IRQ_DMA_DONE_BIT) {
      if s.dmaOwner.Some? {
        TickSurvives(P, env, s, d);
        TickKeeps(env, s, d);
        var d1 := Tick(env, d);
        ServeDmaSound(env, s, d1);
        ServiceDmaExact(env, s, d);
        ClearDmaStatusSurvives(P, env, ServeDma(s, Some(DmaStatus(d1))), d1);
      } else {
        ClearDmaStatusSurvives(P, env, s, d);
      }
    }
  }

  lemma ServiceCommandSurvives(P: Property, env: Env, s: Sched, d: Device, pending: U32)
    requires Stable(env, P) && Sound(s, d) && P(s, d)
    requires Test(pending, IRQ_CMD_DONE_BIT) ==> !CommandBusy(d)
    ensures var o := ServiceCommand(env, System(s, d), pending); P(o.sched, o.device)
  {
    if Test(pending, IRQ_CMD_DONE_BIT) {
      if s.accelOwner.Some? {
        TickSurvives(P, env, s, d);
        TickKeeps(env, s, d);
        var d1 := Tick(env, d);
        ServeAcceleratorSound(env, s, d1);
        ClearCommandStatusSurvives(P, env, ServeAccelerator(s, Some(CommandStatus(d1))), d1);
      } else {
        ClearCommandStatusSurvives(P, env, s, d);
      }
    }
  }

  lemma ServiceErrorsSurvives(P: Property, env: Env, s: Sched, d: Device, pending: U32)
    requires Stable(env, P) && Sound(s, d) && P(s, d)
    ensures P(s, ServiceErrors(env, System(s, d), pending).device)
  {
    if Test(pending, IRQ_ERROR_BIT) {
      TickSurvives(P, env, s, d);
      var d1 := Tick(env, d);
      WriteSurvives(P, env, s, d1, REG_ERROR_STATUS, Peek(d1, REG_ERROR_STATUS));
    }
  }

  lemma AcknowledgeSurvives(P: Property, env: Env, s: Sched, d: Device, mask: U32)
    requires Stable(env, P) && Sound(s, d) && P(s, d)
    ensures P(s, Acknowledge(env, System(s, d), mask).device)
  {
    WriteSurvives(P, env, s, d, REG_IRQ_STATUS, mask);
  }

  lemma ErrorsThenAcknowledgeSurvives(P: Property, env: Env, s: Sched, d: Device, pending: U32)
    requires Stable(env, P) && Structure(s) && Drained(s, d, pending) && P(s, d)
    ensures P(s, Acknowledge(env, ServiceErrors(env, System(s, d), pending), Acknowledged(pending)).device)
  {
    ServiceErrorsSurvives(P, env, s, d, pending);
    ServiceErrorsKeeps(env, s, d, pending);
    AcknowledgeSurvives(P, env, s, ServiceErrors(env, System(s, d), pending).device, Acknowledged(pending));
  }

  lemma TimerSurvives(P: Property, env: Env, s: Sched, d: Device, pending: U32)
    requires Stable(env, P) && Structure(s) && Drained(s, d, pending) && P(s, d)
    ensures var s' := ServeTimer(s, Test(pending, IRQ_TIMER_BIT));
      && Structure(s') && Drained(s', d, pending) && P(s', d)
      && ServiceTimer(System(s, d), pending) == System(s', d)
  {
    var s' := ServeTimer(s, Test(pending, IRQ_TIMER_BIT));
    CountersKeepStructure(s, s');
    DrainedIgnoresCounters(s, s', d, pending);
    assert Moves(env, Unseen, s, d, s', d);
  }

  lemma ServiceRestSurvives(P: Property, env: Env, s: Sched, d: Device, pending: U32)
    requires Stable(env, P) && Structure(s) && Drained(s, d, pending) && P(s, d)
    ensures var o := Acknowledge(env, ServiceErrors(env, ServiceTimer(System(s, d), pending), pending),
                                 Acknowledged(pending));
      P(o.sched, o.device)
  {
    TimerSurvives(P, env, s, d, pending);
    ErrorsThenAcknowledgeSurvives(P, env, ServeTimer(s, Test(pending, IRQ_TIMER_BIT)), d, pending);
  }

  lemma ServiceSampledSurvives(P: Property, env: Env, s: Sched, d: Device)
    requires Stable(env, P) && Sound(s, d) && P(s, d)
    ensures var o := ServiceSampled(env, System(s, d), d.irqPending).system; P(o.sched, o.device)
  {
    var pending := d.irqPending;
    ServiceDmaExact(env, s, d);
    ServiceDmaSurvives(P, env, s, d);
    var o1 := ServiceDma(env, System(s, d), pending).system;
    assert Test(pending, IRQ_CMD_DONE_BIT) ==> !CommandBusy(d) && CommandStatus(o1.device) == CommandStatus(d);
    ServiceCommandExact(env, o1.sched, o1.device, pending);
    ServiceCommandSurvives(P, env, o1.sched, o1.device, pending);
    var o2 := ServiceCommand(env, o1, pending);
    ServiceRestSurvives(P, env, o2.sched, o2.device, pending);
  }

  lemma ServiceIfAssertedSurvives(P: Property, env: Env, s: Sched, d: Device)
    requires Stable(env, P) && Sound(s, d) && P(s, d)
    ensures var o := ServiceIfAsserted(env, System(s, d)).system; P(o.sched, o.device)
  {
    if IrqAsserted(d) {
      TickSurvives(P, env, s, d);
      ServiceSampledSurvives(P, env, s, Tick(env, d));
    }
  }

  // ---- Dispatching ----

  lemma StartSurvives(P: Property, env: Env, s: Sched, d: Device, i: nat)
    requires Stable(env, P) && Sound(s, d) && P(s, d)
    requires i < |s.tasks| && Candidate(s, i) && IsDmaPhase(s.tasks[i].phase)
    ensures var go := Or(RegisterBit(DMA_CTRL_START_BIT), RegisterBit(DMA_CTRL_IRQ_ENABLE_BIT));
      P(Launch(s, i), Write(env, d, REG_DMA_CTRL, go))
  {
    var go := Or(RegisterBit(DMA_CTRL_START_BIT), RegisterBit(DMA_CTRL_IRQ_ENABLE_BIT));
    TickSurvives(P, env, s, d);
    var d1 := Tick(env, d);
    assert Moves(env, DmaLaunches(i), s, d1, Launch(s, i), Poke(d1, REG_DMA_CTRL, go));
  }

  lemma SubmitSurvives(P: Property, env: Env, s: Sched, d: Device, i: nat)
    requires Stable(env, P) && Sound(s, d) && P(s, d)
    requires i < |s.tasks| && Candidate(s, i) && s.tasks[i].phase.Execute?
    ensures P(Launch(s, i), Write(env, d, REG_CMD_SUBMIT, RegisterBit(CMD_SUBMIT_BIT)))
  {
    TickSurvives(P, env, s, d);
    var d1 := Tick(env, d);
    assert Moves(env, AcceleratorLaunches(i), s, d1, Launch(s, i),
                 Poke(d1, REG_CMD_SUBMIT, RegisterBit(CMD_SUBMIT_BIT)));
  }

  lemma DmaStagingSurvives(P: Property, env: Env, s: Sched, d: Device, r: DmaRequest)
    requires Stable(env, P) && Sound(s, d) && P(s, d) && s.dmaOwner.None?
    ensures var d' := WriteAll(env, ClearDmaStatus(env, d), DmaWrites(r)); Sound(s, d') && P(s, d')
  {
    ClearDmaStatusSurvives(P, env, s, d);
    WriteAllSurvives(P, env, s, ClearDmaStatus(env, d), DmaWrites(r));
  }

  lemma CommandStagingSurvives(P: Property, env: Env, s: Sched, d: Device, c: Command)
    requires Stable(env, P) && Sound(s, d) && P(s, d) && s.accelOwner.None?
    ensures var d' := WriteAll(env, ClearCommandStatus(env, d), CommandWrites(c)); Sound(s, d') && P(s, d')
  {
    ClearCommandStatusSurvives(P, env, s, d);
    WriteAllSurvives(P, env, s, ClearCommandStatus(env, d), CommandWrites(c));
  }

  lemma DmaStartSurvives(P: Property, env: Env, s: Sched, d: Device, i: nat, r: DmaRequest)
    requires Stable(env, P) && Sound(s, d) && P(s, d) && DmaClear(d) && r.length != 0
    requires i < |s.tasks| && Candidate(s, i) && IsDmaPhase(s.tasks[i].phase)
    ensures P(Launch(s, i), DmaStart(env, d, r).device)
  {
    TickSurvives(P, env, s, d);
    TickKeeps(env, s, d);
    var d1 := Tick(env, d);
    DmaStagingSurvives(P, env, s, d1, r);
    StartSurvives(P, env, s, WriteAll(env, ClearDmaStatus(env, d1), DmaWrites(r)), i);
  }

  lemma AcceleratorSubmitSurvives(P: Property, env: Env, s: Sched, d: Device, i: nat, c: Command)
    requires Stable(env, P) && Sound(s, d) && P(s, d) && CommandClear(d) && c.opcode != CMD_OP_INVALID
    requires i < |s.tasks| && Candidate(s, i) && s.tasks[i].phase.Execute?
    ensures P(Launch(s, i), AcceleratorSubmit(env, d, c).device)
  {
    TickSurvives(P, env, s, d);
    TickKeeps(env, s, d);
    var d1 := Tick(env, d);
    CommandStagingSurvives(P, env, s, d1, c);
    SubmitSurvives(P, env, s, WriteAll(env, ClearCommandStatus(env, d1), CommandWrites(c)), i);
  }

  lemma DispatchSurvives(P: Property, env: Env, s: Sched, d: Device, i: nat)
    requires Stable(env, P) && Sound(s, d) && Quiet(s, d) && P(s, d)
    requires i < |s.tasks| && Candidate(s, i)
    ensures var o := Dispatch(env, System(s, d), i); o.thrown == None && P(o.system.sched, o.system.device)
  {
    assert TaskOk(s, i);
    if s.tasks[i].phase.Execute? {
      AcceptedCommandExists(s.tasks[i]);
      var c := MakeCommand(s.tasks[i]).value;
      CommandSubmitSucceeds(env, s, d, c);
      DispatchAcceleratorIsLaunch(env, s, d, i, c);
      AcceleratorSubmitSurvives(P, env, s, d, i, c);
    } else {
      AcceptedTransfer(s.tasks[i]);
      var r := StageTransfer(s.tasks[i]).value;
      DmaStartSucceeds(env, s, d, r);
      DmaStartSurvives(P, env, s, d, i, r);
    }
  }

  lemma SelectAndDispatchSurvives(P: Property, env: Env, s: Sched, d: Device)
    requires Stable(env, P) && Sound(s, d) && Quiet(s, d) && P(s, d)
    ensures var o := SelectAndDispatch(env, System(s, d)); P(o.sched, o.device)
  {
    match SelectReady(s)
    case Some(i) => DispatchSurvives(P, env, s, d, i);
    case None => assert Moves(env, Unseen, s, d, SelectAndDispatch(env, System(s, d)).sched, d);
  }

  // ---- The whole call ----

  /** From the first register access on. */
  lemma CallSurvivesAfterFirstAccess(P: Property, env: Env, s: Sched, d: Device)
    requires Stable(env, P) && Sound(s, d) && P(CountCall(s), Tick(env, d))
    ensures var o := RunOnce(env, System(s, d)).system; Sound(o.sched, o.device) && P(o.sched, o.device)
  {
    RunOnceExact(env, s, d);
    var s1 := CountCall(s);
    CountersKeepStructure(s, s1);
    LinkIgnoresCounters(s, s1, d);
    TickKeeps(env, s1, d);
    var d1 := Tick(env, d);
    ServiceIfAssertedExact(env, s1, d1);
    ServiceIfAssertedSurvives(P, env, s1, d1);
    var o := ServiceIfAsserted(env, System(s1, d1));
    SelectAndDispatchSurvives(P, env, o.system.sched, o.system.device);
  }

  /** A stable predicate survives a scheduler call under every interference. */
  lemma CallSurvives(P: Property, env: Env, s: Sched, d: Device)
    requires Stable(env, P) && Sound(s, d) && P(s, d)
    ensures var o := RunOnce(env, System(s, d)).system; Sound(o.sched, o.device) && P(o.sched, o.device)
  {
    TickSurvives(P, env, s, d);
    assert Moves(env, Unseen, s, Tick(env, d), CountCall(s), Tick(env, d));
    CallSurvivesAfterFirstAccess(P, env, s, d);
  }

  /** A call on linked scheduler and device throws nothing and leaves them linked. */
  lemma CallIsSafe(env: Env, s: Sched, d: Device)
    requires Sound(s, d)
    ensures var o := RunOnce(env, System(s, d)); o.thrown == None && Sound(o.system.sched, o.system.device)
  {
    RunOnceExact(env, s, d);
  }
}

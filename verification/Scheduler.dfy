/** The cooperative scheduler as an object: every method is proved equal to its function in
    `SchedulerSpec`. */
module Scheduler {
  import opened Words
  import opened Soc
  import opened DeviceModel
  import opened DriverProtocol
  import opened RegisterMap
  import opened Tasks
  import opened SchedulerSpec
  import opened Mmio
  import opened Drivers
  import opened Interference
  import opened Runs

  class CooperativeScheduler {
    const mmio: FakeMmio
    const dma: DmaDriver
    const accelerator: AcceleratorDriver
    const interrupts: InterruptDriver
    const timer: TimerDriver
    var tasks: seq<Task>
    var dispatchOrder: seq<nat>
    var completionOrder: seq<nat>
    var activeDmaTask: Option<nat>
    var activeAcceleratorTask: Option<nat>
    var schedulerCalls: nat
    var timerTicks: nat
    var softwareSchedulerStalls: nat

    ghost predicate Wired() {
      mmio.Valid() && dma.mmio == mmio && accelerator.mmio == mmio && interrupts.mmio == mmio && timer.mmio == mmio
    }

    ghost function State(): Sched
      reads this
    {
      Sched(tasks, activeDmaTask, activeAcceleratorTask, dispatchOrder, completionOrder,
            schedulerCalls, timerTicks, softwareSchedulerStalls)
    }

    ghost function Whole(): System
      requires Wired()
      reads this, mmio, mmio.registers
    {
      System(State(), mmio.State())
    }

    ghost predicate Valid()
      reads this
    {
      Wired() && Indexed(State())
    }

    constructor (mmio: FakeMmio)
      requires mmio.Valid()
      ensures Valid() && this.mmio == mmio && State() == EMPTY
      ensures tasks == [] && dispatchOrder == [] && completionOrder == []
      ensures activeDmaTask == None && activeAcceleratorTask == None
      ensures schedulerCalls == 0 && timerTicks == 0 && softwareSchedulerStalls == 0
    {
      this.mmio := mmio;
      dma := new DmaDriver(mmio);
      accelerator := new AcceleratorDriver(mmio);
      interrupts := new InterruptDriver(mmio);
      timer := new TimerDriver(mmio);
      tasks := [];
      dispatchOrder := [];
      completionOrder := [];
      activeDmaTask := None;
      activeAcceleratorTask := None;
      schedulerCalls := 0;
      timerTicks := 0;
      softwareSchedulerStalls := 0;
    }

    method BootSystem(interval: U32) returns (thrown: Option<Exception>)
      requires Valid()
      modifies mmio, mmio.registers
      ensures DriverOutcome(mmio.State(), thrown) == Boot(mmio.env, old(mmio.State()), interval)
      ensures thrown == (if interval < 0x100_0000 then None else Some(InvalidArgument))
      ensures mmio.State() == WriteAll(mmio.env, old(mmio.State()), BootWrites(interval))
      ensures ConfiguredFor(old(mmio.State()), interval, mmio.State())
      ensures State() == EMPTY && Idle(old(mmio.State())) ==> Sound(State(), mmio.State())
    {
      BootConfigures(mmio.env, mmio.State(), interval);
      BootAccesses(mmio.env, mmio.State(), interval);
      if Idle(mmio.State()) {
        BootLinks(mmio.env, mmio.State(), interval);
      }
      mmio.Write(REG_CTRL, RegisterBit(CTRL_ENABLE_BIT));
      interrupts.Enable(InterruptMask());
      if interval == 0 {
        timer.Stop();
        thrown := None;
      } else {
        thrown := timer.StartPeriodic(interval);
      }
    }

    // ---- Submission ----

    method AddTask(priority: U32, workload: Workload, initialPhase: TaskPhase)
      returns (r: Result<nat, Exception>)
      requires Valid()
      modifies this`tasks
      ensures Valid()
      ensures |old(tasks)| >= TASK_SLOT_COUNT ==> r == Failure(LengthError) && tasks == old(tasks)
      ensures |old(tasks)| < TASK_SLOT_COUNT ==>
        && r == Success(|old(tasks)|)
        && tasks == old(tasks) + [Task(|old(tasks)|, priority, Ready, initialPhase, workload, schedulerCalls, 0, None)]
    {
      if |tasks| >= TASK_SLOT_COUNT {
        return Failure(LengthError);
      }
      r := Success(|tasks|);
      tasks := tasks + [Task(|tasks|, priority, Ready, initialPhase, workload, schedulerCalls, 0, None)];
    }

    method SubmitDmaCopy(source: U32, destination: U32, lengthBytes: U32, priority: U32)
      returns (r: Result<nat, Exception>)
      requires Valid()
      modifies this`tasks
      ensures Valid()
      ensures (State(), r) == Submit(old(State()), CopyRequest(source, destination, lengthBytes, priority))
      ensures r == Failure(InvalidArgument) <==> lengthBytes == 0
      ensures r == Failure(LengthError) <==> lengthBytes != 0 && |old(tasks)| >= 16
      ensures r.Success? <==> lengthBytes != 0 && |old(tasks)| < 16
      ensures r.Success? ==> r.value == |old(tasks)| && |tasks| == |old(tasks)| + 1
    {
      if lengthBytes == 0 {
        return Failure(InvalidArgument);
      }
      r := AddTask(priority, Workload(DmaCopy, CMD_OP_DMA_COPY, source, 0, destination, lengthBytes, 0, 0, 0, 0), Copy);
    }

    method SubmitVectorAdd(source0: U32, source1: U32, destination: U32, length: U32, priority: U32,
                           signedMode: bool, saturate: bool)
      returns (r: Result<nat, Exception>)
      requires Valid()
      modifies this`tasks
      ensures Valid()
      ensures (State(), r) == Submit(old(State()),
                VectorAddRequest(source0, source1, destination, length, priority, signedMode, saturate))
      ensures r == Failure(InvalidArgument) <==> length == 0 || length > 256
      ensures r == Failure(LengthError) <==> 1 <= length <= 256 && |old(tasks)| >= 16
      ensures r.Success? <==> 1 <= length <= 256 && |old(tasks)| < 16
      ensures r.Success? ==> r.value == |old(tasks)| && |tasks| == |old(tasks)| + 1
    {
      if length == 0 || length > MAX_VECTOR_LENGTH {
        return Failure(InvalidArgument);
      }
      var flags := ComputeFlags(signedMode, saturate);
      r := AddTask(priority, Workload(Vector, CMD_OP_VECTOR_ADD, source0, source1, destination, length, 0, 0, 0, flags),
                   LoadSource0);
    }

    method SubmitVectorReluOrClamp(source0: U32, source1: U32, destination: U32, length: U32, clamp: bool,
                                   priority: U32, signedMode: bool)
      returns (r: Result<nat, Exception>)
      requires Valid()
      modifies this`tasks
      ensures Valid()
      ensures (State(), r) == Submit(old(State()),
                ReluOrClampRequest(source0, source1, destination, length, clamp, priority, signedMode))
      ensures r == Failure(InvalidArgument) <==> length == 0 || length > 256
      ensures r == Failure(LengthError) <==> 1 <= length <= 256 && |old(tasks)| >= 16
      ensures r.Success? <==> 1 <= length <= 256 && |old(tasks)| < 16
      ensures r.Success? ==> r.value == |old(tasks)| && |tasks| == |old(tasks)| + 1
    {
      if length == 0 || length > MAX_VECTOR_LENGTH {
        return Failure(InvalidArgument);
      }
      var flags := ComputeFlags(signedMode, false);
      r := AddTask(priority,
                   Workload(Vector, if clamp then CMD_OP_VECTOR_CLAMP else CMD_OP_VECTOR_RELU, source0, source1,
                            destination, length, 0, 0, 0, flags),
                   LoadSource0);
    }

    method SubmitReduceSum(source: U32, destination: U32, length: U32, priority: U32, signedMode: bool, saturate: bool)
      returns (r: Result<nat, Exception>)
      requires Valid()
      modifies this`tasks
      ensures Valid()
      ensures (State(), r) == Submit(old(State()),
                ReduceSumRequest(source, destination, length, priority, signedMode, saturate))
      ensures r == Failure(InvalidArgument) <==> length == 0 || length > 256
      ensures r == Failure(LengthError) <==> 1 <= length <= 256 && |old(tasks)| >= 16
      ensures r.Success? <==> 1 <= length <= 256 && |old(tasks)| < 16
      ensures r.Success? ==> r.value == |old(tasks)| && |tasks| == |old(tasks)| + 1
    {
      if length == 0 || length > MAX_REDUCTION_LENGTH {
        return Failure(InvalidArgument);
      }
      var flags := ComputeFlags(signedMode, saturate);
      r := AddTask(priority, Workload(Reduction, CMD_OP_REDUCE_SUM, source, 0, destination, length, 0, 0, 0, flags),
                   LoadSource0);
    }

    method SubmitReduceMax(source: U32, destination: U32, length: U32, priority: U32, signedMode: bool)
      returns (r: Result<nat, Exception>)
      requires Valid()
      modifies this`tasks
      ensures Valid()
      ensures (State(), r) == Submit(old(State()), ReduceMaxRequest(source, destination, length, priority, signedMode))
      ensures r == Failure(InvalidArgument) <==> length == 0 || length > 256
      ensures r == Failure(LengthError) <==> 1 <= length <= 256 && |old(tasks)| >= 16
      ensures r.Success? <==> 1 <= length <= 256 && |old(tasks)| < 16
      ensures r.Success? ==> r.value == |old(tasks)| && |tasks| == |old(tasks)| + 1
    {
      if length == 0 || length > MAX_REDUCTION_LENGTH {
        return Failure(InvalidArgument);
      }
      var flags := ComputeFlags(signedMode, false);
      r := AddTask(priority, Workload(Reduction, CMD_OP_REDUCE_MAX, source, 0, destination, length, 0, 0, 0, flags),
                   LoadSource0);
    }

    method SubmitGemm(source0: U32, source1: U32, destination: U32, rows: U32, columns: U32, inner: U32,
                      priority: U32, signedMode: bool, saturate: bool)
      returns (r: Result<nat, Exception>)
      requires Valid()
      modifies this`tasks
      ensures Valid()
      ensures (State(), r) == Submit(old(State()),
                GemmRequest(source0, source1, destination, rows, columns, inner, priority, signedMode, saturate))
      ensures r == Failure(InvalidArgument) <==>
        rows == 0 || rows > 8 || columns == 0 || columns > 8 || inner == 0 || inner > 8
      ensures r == Failure(LengthError) <==>
        1 <= rows <= 8 && 1 <= columns <= 8 && 1 <= inner <= 8 && |old(tasks)| >= 16
      ensures r.Success? <==> 1 <= rows <= 8 && 1 <= columns <= 8 && 1 <= inner <= 8 && |old(tasks)| < 16
      ensures r.Success? ==> r.value == |old(tasks)| && |tasks| == |old(tasks)| + 1
    {
      if rows == 0 || rows > MAX_GEMM_M || columns == 0 || columns > MAX_GEMM_N || inner == 0 || inner > MAX_GEMM_K {
        return Failure(InvalidArgument);
      }
      var flags := ComputeFlags(signedMode, saturate);
      r := AddTask(priority, Workload(Gemm, CMD_OP_GEMM, source0, source1, destination, 0, rows, columns, inner, flags),
                   LoadSource0);
    }

    // ---- One scheduler call ----

    /** One call; `thrown` is the exception that leaves it, if any: none when scheduler and device are linked. */
    method RunOnceCall() returns (thrown: Option<Exception>)
      requires Valid()
      modifies this, mmio, mmio.registers
      ensures Valid()
      ensures Outcome(Whole(), thrown) == RunOnce(mmio.env, old(Whole()))
      ensures Sound(old(State()), old(mmio.State())) ==> thrown == None && Sound(State(), mmio.State())
    {
      if Sound(State(), mmio.State()) {
        CallIsSafe(mmio.env, State(), mmio.State());
      }
      schedulerCalls := schedulerCalls + 1;
      var asserted := interrupts.Asserted();
      ghost var called := Whole();
      assert called == System(CountCall(old(State())), Tick(mmio.env, old(mmio.State())));
      thrown := None;
      if asserted {
        thrown := ServicePending();
      }
      assert Outcome(Whole(), thrown) == ServiceIfAsserted(mmio.env, called);
      if thrown.None? {
        SelectAndStart();
      }
    }

    method SelectAndStart()
      requires Valid()
      modifies this, mmio, mmio.registers
      ensures Valid()
      ensures Whole() == SelectAndDispatch(mmio.env, old(Whole()))
    {
      var selected := SelectReadyTask();
      if selected.None? {
        var terminal := AllTasksTerminal();
        if !terminal {
          softwareSchedulerStalls := softwareSchedulerStalls + 1;
        }
        return;
      }
      var thrown := DispatchTask(selected.value);
      if thrown.Some? {
        Fail(selected.value, Thrown(thrown.value));
      }
    }

    method AllTasksTerminal() returns (terminal: bool)
      ensures terminal == AllTerminal(State())
    {
      terminal := true;
      for i := 0 to |tasks|
        invariant terminal == forall j :: 0 <= j < i ==> Terminal(tasks[j])
      {
        if !Terminal(tasks[i]) {
          terminal := false;
        }
      }
    }

    method SelectReadyTask() returns (selected: Option<nat>)
      ensures selected == SelectReady(State())
    {
      selected := None;
      for index := 0 to |tasks|
        invariant selected == SelectAmong(State(), index)
      {
        if !tasks[index].state.Ready? || !ResourceIsFree(tasks[index]) {
          continue;
        }
        if selected.None? || tasks[index].priority > tasks[selected.value].priority {
          selected := Some(index);
        }
      }
    }

    function ResourceIsFree(t: Task): (free: bool)
      reads this
      ensures free == ResourceAvailable(State(), t)
    {
      if t.phase.Execute? then activeAcceleratorTask.None?
      else if t.phase.Complete? then true
      else activeDmaTask.None?
    }

    method DispatchTask(i: nat) returns (thrown: Option<Exception>)
      requires Valid() && i < |tasks|
      modifies this, mmio, mmio.registers
      ensures Valid() && |tasks| == |old(tasks)|
      ensures Outcome(Whole(), thrown) == Dispatch(mmio.env, old(Whole()), i)
    {
      tasks := tasks[i := tasks[i].(state := TaskState.Running)];
      dispatchOrder := dispatchOrder + [tasks[i].id];
      if tasks[i].phase.Complete? {
        Finish(i);
        thrown := None;
      } else if tasks[i].phase.Execute? {
        thrown := StartAccelerator(i);
      } else {
        thrown := StartDma(i);
      }
    }

    method StartDma(i: nat) returns (thrown: Option<Exception>)
      requires Valid() && i < |tasks|
      modifies this, mmio, mmio.registers
      ensures Valid() && |tasks| == |old(tasks)|
      ensures Outcome(Whole(), thrown) == DispatchDma(mmio.env, old(Whole()), i)
    {
      var transfer := StageTransfer(tasks[i]);
      if transfer.Failure? {
        return Some(transfer.error);
      }
      thrown := dma.Start(transfer.value.source, transfer.value.destination, transfer.value.length);
      if thrown.None? {
        activeDmaTask := Some(tasks[i].id);
        tasks := tasks[i := tasks[i].(state := BlockedOnDma)];
      }
    }

    method StartAccelerator(i: nat) returns (thrown: Option<Exception>)
      requires Valid() && i < |tasks|
      modifies this, mmio, mmio.registers
      ensures Valid() && |tasks| == |old(tasks)|
      ensures Outcome(Whole(), thrown) == DispatchAccelerator(mmio.env, old(Whole()), i)
    {
      var command := MakeCommand(tasks[i]);
      if command.Failure? {
        return Some(command.error);
      }
      thrown := accelerator.Submit(command.value);
      if thrown.None? {
        activeAcceleratorTask := Some(tasks[i].id);
        tasks := tasks[i := tasks[i].(state := BlockedOnAccel)];
      }
    }

    // ---- Interrupt service ----

    method ServicePending() returns (thrown: Option<Exception>)
      requires Valid()
      modifies this, mmio, mmio.registers
      ensures Valid()
      ensures Outcome(Whole(), thrown) == ServiceInterrupts(mmio.env, old(Whole()))
    {
      var pending := interrupts.Pending();
      ghost var sampled := Whole();
      thrown := ServiceDmaSource(pending);
      if thrown.None? {
        ghost var served := Whole();
        assert ServiceDma(mmio.env, sampled, pending) == Outcome(served, None);
        ServiceOtherSources(pending);
      }
      assert Outcome(Whole(), thrown) == ServiceSampled(mmio.env, sampled, pending);
    }

    /** Everything after the DMA source: command, accelerator, timer, error, acknowledgement. */
    method ServiceOtherSources(pending: U32)
      requires Valid()
      modifies this, mmio, mmio.registers
      ensures Valid()
      ensures Whole() == ServiceOthers(mmio.env, old(Whole()), pending)
    {
      ServiceCommandSource(pending);
      ghost var s1 := Whole();
      if Test(pending, IRQ_TIMER_BIT) {
        timerTicks := timerTicks + 1;
      }
      assert Whole() == ServiceTimer(s1, pending);
      ServiceErrorSource(pending);
      ghost var s2 := Whole();
      var acknowledged := Acknowledged(pending);
      if acknowledged != 0 {
        interrupts.Acknowledge(acknowledged);
      }
      assert Whole() == Acknowledge(mmio.env, s2, acknowledged);
    }

    method ServiceDmaSource(pending: U32) returns (thrown: Option<Exception>)
      requires Valid()
      modifies this, mmio, mmio.registers
      ensures Valid()
      ensures Outcome(Whole(), thrown) == ServiceDma(mmio.env, old(Whole()), pending)
    {
      if Test(pending, IRQ_DMA_DONE_BIT) {
        if activeDmaTask.Some? {
          var status := dma.Status();
          thrown := CompleteDmaStage(activeDmaTask.value, status);
          if thrown.Some? {
            return;
          }
        }
        dma.ClearStatus();
      }
      thrown := None;
    }

    method ServiceCommandSource(pending: U32)
      requires Valid()
      modifies this, mmio, mmio.registers
      ensures Valid()
      ensures Whole() == ServiceCommand(mmio.env, old(Whole()), pending)
    {
      if Test(pending, IRQ_CMD_DONE_BIT) {
        if activeAcceleratorTask.Some? {
          var status := accelerator.Status();
          CompleteAcceleratorStage(activeAcceleratorTask.value, status);
        }
        accelerator.ClearStatus();
      }
    }

    method ServiceErrorSource(pending: U32)
      requires Valid()
      modifies mmio, mmio.registers
      ensures Whole() == ServiceErrors(mmio.env, old(Whole()), pending)
    {
      if Test(pending, IRQ_ERROR_BIT) {
        var errors := mmio.Read(REG_ERROR_STATUS);
        if errors != 0 {
          mmio.Write(REG_ERROR_STATUS, errors);
        }
      }
    }

    method CompleteDmaStage(i: nat, status: CompletionStatus) returns (thrown: Option<Exception>)
      requires Valid() && i < |tasks|
      modifies this
      ensures Valid()
      ensures (State(), thrown) == CompleteDmaTask(old(State()), i, status)
    {
      activeDmaTask := None;
      thrown := None;
      if !status.done || status.error {
        Fail(i, DmaReportedError);
        return;
      }
      match tasks[i].phase {
        case Copy =>
          Finish(i);
        case LoadSource0 =>
          var bytes := Source1Bytes(tasks[i].workload);
          if bytes.Failure? {
            return Some(bytes.error);
          }
          tasks := tasks[i := tasks[i].(phase := if bytes.value == 0 then Execute else LoadSource1, state := Ready)];
        case LoadSource1 =>
          tasks := tasks[i := tasks[i].(phase := Execute, state := Ready)];
        case StoreOutput =>
          Finish(i);
        case _ =>
          Fail(i, DmaInvalidPhase);
      }
    }

    method CompleteAcceleratorStage(i: nat, status: CompletionStatus)
      requires Valid() && i < |tasks|
      modifies this
      ensures Valid()
      ensures State() == CompleteAcceleratorTask(old(State()), i, status)
    {
      activeAcceleratorTask := None;
      if !status.done || status.error {
        Fail(i, AcceleratorReportedError);
        return;
      }
      tasks := tasks[i := tasks[i].(phase := StoreOutput, state := Ready)];
    }

    method Fail(i: nat, reason: FailureReason)
      requires Valid() && i < |tasks|
      modifies this
      ensures Valid()
      ensures State() == FailTask(old(State()), i, reason)
    {
      tasks := tasks[i := tasks[i].(state := TaskState.Error, failure := Some(reason), completedAt := schedulerCalls)];
      if activeDmaTask == Some(tasks[i].id) {
        activeDmaTask := None;
      }
      if activeAcceleratorTask == Some(tasks[i].id) {
        activeAcceleratorTask := None;
      }
    }

    method Finish(i: nat)
      requires Valid() && i < |tasks|
      modifies this
      ensures Valid()
      ensures State() == FinishTask(old(State()), i)
    {
      tasks := tasks[i := tasks[i].(phase := Complete, state := Done, completedAt := schedulerCalls)];
      completionOrder := completionOrder + [tasks[i].id];
    }
  }

  /** `operation_flags`: bits accumulated in a local. */
  method ComputeFlags(signedMode: bool, saturate: bool) returns (flags: U32)
    ensures flags == OperationFlags(signedMode, saturate)
  {
    flags := RegisterBit(FLAG_IRQ_ON_DONE_BIT);
    if signedMode {
      flags := Or(flags, RegisterBit(FLAG_SIGNED_BIT));
    }
    if saturate {
      flags := Or(flags, RegisterBit(FLAG_SATURATE_BIT));
    }
  }
}

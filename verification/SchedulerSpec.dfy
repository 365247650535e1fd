/** The cooperative scheduler as functions on its state and on the device, access by access. */
module SchedulerSpec {
  import opened Words
  import opened Soc
  import opened DeviceModel
  import opened DriverProtocol
  import opened Tasks

  datatype Sched = Sched(
    tasks: seq<Task>,
    dmaOwner: Option<nat>,
    accelOwner: Option<nat>,
    dispatchOrder: seq<nat>,
    completionOrder: seq<nat>,
    calls: nat,
    timerTicks: nat,
    stalls: nat)

  const EMPTY := Sched([], None, None, [], [], 0, 0, 0)

  /** Owners and task ids are usable as task indices. */
  predicate Indexed(s: Sched) {
    && |s.tasks| <= TASK_SLOT_COUNT
    && (forall i :: 0 <= i < |s.tasks| ==> s.tasks[i].id == i)
    && (s.dmaOwner.Some? ==> s.dmaOwner.value < |s.tasks|)
    && (s.accelOwner.Some? ==> s.accelOwner.value < |s.tasks|)
  }

  function WithTask(s: Sched, i: nat, t: Task): Sched
    requires i < |s.tasks|
  {
    s.(tasks := s.tasks[i := t])
  }

  // ---- Submission ----

  /** A submission: the new state, and the task id or the exception. */
  function Submit(s: Sched, r: Request): (Sched, Result<nat, Exception>) {
    match WorkloadOf(r)
    case Failure(e) => (s, Failure(e))
    case Success(w) =>
      if |s.tasks| >= TASK_SLOT_COUNT then (s, Failure(LengthError))
      else
        var t := Task(|s.tasks|, r.priority, Ready, InitialPhase(w), w, s.calls, 0, None);
        (s.(tasks := s.tasks + [t]), Success(|s.tasks|))
  }

  // ---- Selection ----

  function ResourceAvailable(s: Sched, t: Task): bool {
    if t.phase.Execute? then s.accelOwner.None?
    else if t.phase.Complete? then true
    else s.dmaOwner.None?
  }

  predicate Candidate(s: Sched, i: nat)
    requires i < |s.tasks|
  {
    s.tasks[i].state.Ready? && ResourceAvailable(s, s.tasks[i])
  }

  /** The candidate chosen by a left-to-right scan of the first `n` tasks. */
  function SelectAmong(s: Sched, n: nat): (selected: Option<nat>)
    requires n <= |s.tasks|
    ensures selected.Some? ==> selected.value < n && Candidate(s, selected.value)
  {
    if n == 0 then None
    else
      var best := SelectAmong(s, n - 1);
      if Candidate(s, n - 1) && (best.None? || s.tasks[n - 1].priority > s.tasks[best.value].priority)
      then Some(n - 1) else best
  }

  function SelectReady(s: Sched): Option<nat> {
    SelectAmong(s, |s.tasks|)
  }

  predicate AllTerminal(s: Sched) {
    forall i :: 0 <= i < |s.tasks| ==> Terminal(s.tasks[i])
  }

  // ---- Task transitions ----

  function Release(owner: Option<nat>, id: nat): Option<nat> {
    if owner == Some(id) then None else owner
  }

  function FailTask(s: Sched, i: nat, reason: FailureReason): (s': Sched)
    requires i < |s.tasks|
    ensures Indexed(s) ==> Indexed(s')
    ensures s'.dmaOwner != Some(s.tasks[i].id) && s'.accelOwner != Some(s.tasks[i].id)
    ensures s.dmaOwner == s'.dmaOwner || s.dmaOwner == Some(s.tasks[i].id)
    ensures s.accelOwner == s'.accelOwner || s.accelOwner == Some(s.tasks[i].id)
  {
    var t := s.tasks[i].(state := TaskState.Error, failure := Some(reason), completedAt := s.calls);
    WithTask(s, i, t).(dmaOwner := Release(s.dmaOwner, t.id), accelOwner := Release(s.accelOwner, t.id))
  }

  function FinishTask(s: Sched, i: nat): (s': Sched)
    requires i < |s.tasks|
    ensures Indexed(s) ==> Indexed(s')
  {
    var t := s.tasks[i].(phase := Complete, state := Done, completedAt := s.calls);
    WithTask(s, i, t).(completionOrder := s.completionOrder + [t.id])
  }

  function ReadyAt(s: Sched, i: nat, phase: TaskPhase): (s': Sched)
    requires i < |s.tasks|
    ensures Indexed(s) ==> Indexed(s')
  {
    WithTask(s, i, s.tasks[i].(phase := phase, state := Ready))
  }

  /** `complete_dma`, with the exception that would leave it. */
  function CompleteDmaTask(s: Sched, i: nat, status: CompletionStatus): (r: (Sched, Option<Exception>))
    requires i < |s.tasks|
    ensures Indexed(s) ==> Indexed(r.0)
  {
    var s1 := s.(dmaOwner := None);
    if !status.done || status.error then (FailTask(s1, i, DmaReportedError), None)
    else
      match s.tasks[i].phase
      case Copy => (FinishTask(s1, i), None)
      case LoadSource0 =>
        (match Source1Bytes(s.tasks[i].workload)
         case Success(n) => (ReadyAt(s1, i, if n == 0 then Execute else LoadSource1), None)
         case Failure(e) => (s1, Some(e)))
      case LoadSource1 => (ReadyAt(s1, i, Execute), None)
      case StoreOutput => (FinishTask(s1, i), None)
      case _ => (FailTask(s1, i, DmaInvalidPhase), None)
  }

  /** `complete_accelerator`. */
  function CompleteAcceleratorTask(s: Sched, i: nat, status: CompletionStatus): (s': Sched)
    requires i < |s.tasks|
    ensures Indexed(s) ==> Indexed(s')
  {
    var s1 := s.(accelOwner := None);
    if !status.done || status.error then FailTask(s1, i, AcceleratorReportedError)
    else ReadyAt(s1, i, StoreOutput)
  }

  // ---- The scheduler next to the device ----

  datatype System = System(sched: Sched, device: Device)

  /** The state a call leaves behind and the exception it ended with, if any. */
  datatype Outcome = Outcome(system: System, thrown: Option<Exception>)

  /** The DMA part of `service_interrupts`, given the sampled pending word. */
  function ServiceDma(env: Env, sys: System, pending: U32): (served: Outcome)
    requires Indexed(sys.sched)
    ensures Indexed(served.system.sched)
  {
    if !Test(pending, IRQ_DMA_DONE_BIT) then Outcome(sys, None)
    else
      match sys.sched.dmaOwner
      case None => Outcome(sys.(device := ClearDmaStatus(env, sys.device)), None)
      case Some(i) =>
        var d1 := Tick(env, sys.device);
        var (s1, thrown) := CompleteDmaTask(sys.sched, i, DmaStatus(d1));
        if thrown.Some? then Outcome(System(s1, d1), thrown)
        else Outcome(System(s1, ClearDmaStatus(env, d1)), None)
  }

  /** The command part of `service_interrupts`. */
  function ServiceCommand(env: Env, sys: System, pending: U32): (served: System)
    requires Indexed(sys.sched)
    ensures Indexed(served.sched)
  {
    if !Test(pending, IRQ_CMD_DONE_BIT) then sys
    else
      match sys.sched.accelOwner
      case None => sys.(device := ClearCommandStatus(env, sys.device))
      case Some(i) =>
        var d1 := Tick(env, sys.device);
        System(CompleteAcceleratorTask(sys.sched, i, CommandStatus(d1)), ClearCommandStatus(env, d1))
  }

  function ServiceTimer(sys: System, pending: U32): (served: System)
    ensures Indexed(sys.sched) ==> Indexed(served.sched)
  {
    if Test(pending, IRQ_TIMER_BIT) then sys.(sched := sys.sched.(timerTicks := sys.sched.timerTicks + 1)) else sys
  }

  function ServiceErrors(env: Env, sys: System, pending: U32): (served: System)
    ensures served.sched == sys.sched
  {
    if !Test(pending, IRQ_ERROR_BIT) then sys
    else
      var d1 := Tick(env, sys.device);
      var errors := Peek(d1, REG_ERROR_STATUS);
      sys.(device := if errors != 0 then Write(env, d1, REG_ERROR_STATUS, errors) else d1)
  }

  /** The bits `service_interrupts` acknowledges: the sampled ones it knows. */
  function Acknowledged(pending: U32): (mask: U32)
    ensures forall b: nat :: Test(mask, b) <==> b < 5 && Test(pending, b)
  {
    AcknowledgedUpTo(pending, 5)
  }

  function AcknowledgedUpTo(pending: U32, n: nat): (mask: U32)
    requires n <= 5
    ensures forall b: nat :: Test(mask, b) <==> b < n && Test(pending, b)
  {
    if n == 0 then
      assert forall b: nat :: !Test(0, b) by { forall b: nat { ZeroHasNoBits(b); } }
      0
    else
      var rest := AcknowledgedUpTo(pending, n - 1);
      if Test(pending, n - 1) then Or(rest, RegisterBit(n - 1)) else rest
  }

  function Acknowledge(env: Env, sys: System, mask: U32): (served: System)
    ensures served.sched == sys.sched
  {
    if mask == 0 then sys else sys.(device := Write(env, sys.device, REG_IRQ_STATUS, mask))
  }

  /** `service_interrupts`: the pending word is sampled once, each sampled source is served, and
      exactly the sampled sources are acknowledged. */
  function ServiceInterrupts(env: Env, sys: System): (served: Outcome)
    requires Indexed(sys.sched)
    ensures Indexed(served.system.sched)
  {
    var d1 := Tick(env, sys.device);
    ServiceSampled(env, sys.(device := d1), d1.irqPending)
  }

  function ServiceSampled(env: Env, sys: System, pending: U32): (served: Outcome)
    requires Indexed(sys.sched)
    ensures Indexed(served.system.sched)
  {
    var served := ServiceDma(env, sys, pending);
    if served.thrown.Some? then served else Outcome(ServiceOthers(env, served.system, pending), None)
  }

  function ServiceOthers(env: Env, sys: System, pending: U32): (served: System)
    requires Indexed(sys.sched)
    ensures Indexed(served.sched)
  {
    var s1 := ServiceTimer(ServiceCommand(env, sys, pending), pending);
    Acknowledge(env, ServiceErrors(env, s1, pending), Acknowledged(pending))
  }

  function DispatchDma(env: Env, sys: System, i: nat): (dispatched: Outcome)
    requires i < |sys.sched.tasks|
    ensures Indexed(sys.sched) ==> Indexed(dispatched.system.sched)
    ensures |dispatched.system.sched.tasks| == |sys.sched.tasks|
  {
    match StageTransfer(sys.sched.tasks[i])
    case Failure(e) => Outcome(sys, Some(e))
    case Success(request) =>
      var started := DmaStart(env, sys.device, request);
      if started.thrown.Some? then Outcome(sys.(device := started.device), started.thrown)
      else Outcome(System(BlockOnDma(sys.sched, i), started.device), None)
  }

  function BlockOnDma(s: Sched, i: nat): (s': Sched)
    requires i < |s.tasks|
    ensures Indexed(s) ==> Indexed(s')
  {
    WithTask(s, i, s.tasks[i].(state := BlockedOnDma)).(dmaOwner := Some(s.tasks[i].id))
  }

  function BlockOnAccelerator(s: Sched, i: nat): (s': Sched)
    requires i < |s.tasks|
    ensures Indexed(s) ==> Indexed(s')
  {
    WithTask(s, i, s.tasks[i].(state := BlockedOnAccel)).(accelOwner := Some(s.tasks[i].id))
  }

  function DispatchAccelerator(env: Env, sys: System, i: nat): (dispatched: Outcome)
    requires i < |sys.sched.tasks|
    ensures Indexed(sys.sched) ==> Indexed(dispatched.system.sched)
    ensures |dispatched.system.sched.tasks| == |sys.sched.tasks|
  {
    match MakeCommand(sys.sched.tasks[i])
    case Failure(e) => Outcome(sys, Some(e))
    case Success(command) =>
      var submitted := AcceleratorSubmit(env, sys.device, command);
      if submitted.thrown.Some? then Outcome(sys.(device := submitted.device), submitted.thrown)
      else Outcome(System(BlockOnAccelerator(sys.sched, i), submitted.device), None)
  }

  function StartRunning(s: Sched, i: nat): (s': Sched)
    requires i < |s.tasks|
    ensures Indexed(s) ==> Indexed(s')
  {
    WithTask(s, i, s.tasks[i].(state := TaskState.Running)).(dispatchOrder := s.dispatchOrder + [s.tasks[i].id])
  }

  /** `dispatch`. */
  function Dispatch(env: Env, sys: System, i: nat): (dispatched: Outcome)
    requires i < |sys.sched.tasks|
    ensures Indexed(sys.sched) ==> Indexed(dispatched.system.sched)
    ensures |dispatched.system.sched.tasks| == |sys.sched.tasks|
  {
    var started := sys.(sched := StartRunning(sys.sched, i));
    match sys.sched.tasks[i].phase
    case Complete => Outcome(started.(sched := FinishTask(started.sched, i)), None)
    case Execute => DispatchAccelerator(env, started, i)
    case _ => DispatchDma(env, started, i)
  }

  function CountCall(s: Sched): Sched {
    s.(calls := s.calls + 1)
  }

  /** The second half of `run_once`: select, then dispatch or count a stall. */
  function SelectAndDispatch(env: Env, sys: System): (done: System)
    requires Indexed(sys.sched)
    ensures Indexed(done.sched)
  {
    match SelectReady(sys.sched)
    case None =>
      if AllTerminal(sys.sched) then sys else sys.(sched := sys.sched.(stalls := sys.sched.stalls + 1))
    case Some(i) =>
      var dispatched := Dispatch(env, sys, i);
      match dispatched.thrown
      case None => dispatched.system
      case Some(e) => dispatched.system.(sched := FailTask(dispatched.system.sched, i, Thrown(e)))
  }

  function ServiceIfAsserted(env: Env, called: System): (served: Outcome)
    requires Indexed(called.sched)
    ensures Indexed(served.system.sched)
  {
    if IrqAsserted(called.device) then ServiceInterrupts(env, called) else Outcome(called, None)
  }

  /** `run_once`. */
  function RunOnce(env: Env, sys: System): (done: Outcome)
    requires Indexed(sys.sched)
    ensures Indexed(done.system.sched)
  {
    var called := System(CountCall(sys.sched), Tick(env, sys.device));
    var served := ServiceIfAsserted(env, called);
    if served.thrown.Some? then served else Outcome(SelectAndDispatch(env, served.system), None)
  }

  function InterruptMask(): (mask: U32)
    ensures forall b: nat :: Test(mask, b) <==> b < 5
  {
    Or(Or(Or(Or(RegisterBit(IRQ_DMA_DONE_BIT), RegisterBit(IRQ_CMD_DONE_BIT)), RegisterBit(IRQ_ACCEL_DONE_BIT)),
          RegisterBit(IRQ_ERROR_BIT)), RegisterBit(IRQ_TIMER_BIT))
  }

  function EnableSources(env: Env, d: Device): Device {
    Write(env, Write(env, d, REG_CTRL, RegisterBit(CTRL_ENABLE_BIT)), REG_IRQ_ENABLE, InterruptMask())
  }

  /** `boot`: enable the SoC and the five interrupt sources, then stop the timer or start it periodically;
      an interval out of range throws after the enabling. */
  function Boot(env: Env, d: Device, interval: U32): DriverOutcome {
    var enabled := EnableSources(env, d);
    if interval == 0 then DriverOutcome(TimerStop(env, enabled), None) else TimerStart(env, enabled, interval)
  }
}

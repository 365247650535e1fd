/** Liveness next to the device: when the environment does not make an operation wait forever, every task
    becomes terminal within a bounded number of calls. */
module Liveness {
  import opened Words
  import opened Soc
  import opened DeviceModel
  import opened Tasks
  import opened SchedulerSpec
  import opened SchedulerSteps
  import opened Protocol
  import opened Interference
  import opened Accounting
  import opened Priority
  import opened Termination
  import opened Runs

  datatype Engine = DmaEngine | AcceleratorEngine

  predicate Busy(e: Engine, d: Device) {
    if e.DmaEngine? then DmaBusy(d) else CommandBusy(d)
  }

  function Owner(e: Engine, s: Sched): Option<nat> {
    if e.DmaEngine? then s.dmaOwner else s.accelOwner
  }

  function VerdictOf(e: Engine, step: EnvStep): Verdict {
    if e.DmaEngine? then step.dma else step.accelerator
  }

  function EventOf(e: Engine, ev: Events): Option<CompletionStatus> {
    if e.DmaEngine? then ev.dma else ev.accelerator
  }

  /** The environment lets nothing happen on the engine at the times in [from, to). */
  ghost predicate Waited(env: Env, e: Engine, from: nat, to: nat) {
    forall u: nat :: from <= u < to ==> VerdictOf(e, env(u)).Waiting?
  }

  /** On either engine the environment never waits at `bound` accesses in a row. */
  ghost predicate Fair(env: Env, bound: nat) {
    forall e, from: nat, to: nat :: Waited(env, e, from, to) ==> to < from + bound
  }

  /** The assumption can be met: an environment that finishes everything at once is fair. */
  lemma EagerIsFair(env: Env)
    requires forall t: nat :: env(t).dma.Finish? && env(t).accelerator.Finish?
    ensures Fair(env, 1)
  {
    forall e, from: nat, to: nat | Waited(env, e, from, to)
      ensures to < from + 1
    {
      assert from < to ==> VerdictOf(e, env(from)).Waiting?;
    }
  }

  lemma TickBusy(env: Env, e: Engine, d: Device)
    requires ExecutionEnabled(d)
    ensures Tick(env, d).time == d.time + 1
    ensures Busy(e, Tick(env, d)) ==> Busy(e, d) && VerdictOf(e, env(d.time)).Waiting?
  {
    var step := env(d.time);
    TickDmaKeeps(EMPTY, d, step.dma);
    var d1 := TickDma(d, step.dma);
    TickAcceleratorKeeps(EMPTY, d1, step.accelerator);
    TickOthersKeep(EMPTY, TickAccelerator(d1, step.accelerator), step.timer, step.errors);
  }

  // ---- An operation that stays in flight over a call has been waiting all the time ----

  function Stage(t: Task): nat {
    StageIndex(t.workload, t.phase)
  }

  /** Since time `start`: stage `stage` of task `i` on engine `e` has been served, or it still owns the
      engine, and if it is still in flight the environment has been waiting ever since. */
  ghost predicate Awaiting(env: Env, e: Engine, i: nat, stage: nat, start: nat, s: Sched, d: Device) {
    && d.time > start && i < |s.tasks|
    && (Beyond(s.tasks[i], stage)
        || (Owner(e, s) == Some(i) && Stage(s.tasks[i]) == stage && (Busy(e, d) ==> Waited(env, e, start, d.time))))
  }

  predicate Beyond(t: Task, stage: nat) {
    Terminal(t) || Stage(t) > stage
  }

  lemma TickAwaits(env: Env, e: Engine, i: nat, stage: nat, start: nat, s: Sched, d: Device)
    requires ExecutionEnabled(d) && Awaiting(env, e, i, stage, start, s, d)
    ensures Awaiting(env, e, i, stage, start, s, Tick(env, d))
  {
    TickBusy(env, e, d);
  }

  /** Waking the owner moves its task on or fails it, and touches no other task and no other engine. */
  lemma DmaWakeupServes(s: Sched, d: Device, i: nat, stage: nat)
    requires Sound(s, d) && s.dmaOwner.Some? && !DmaBusy(d) && i < |s.tasks|
    ensures var s' := ServeDma(s, Some(DmaStatus(d)));
      && (Beyond(s.tasks[i], stage) || (s.dmaOwner == Some(i) && Stage(s.tasks[i]) >= stage) ==>
            Beyond(s'.tasks[i], stage))
      && (s.dmaOwner != Some(i) ==> s'.tasks[i] == s.tasks[i] && s'.accelOwner == s.accelOwner)
  {
    assert TaskOk(s, s.dmaOwner.value);
  }

  lemma CommandWakeupServes(s: Sched, d: Device, i: nat, stage: nat)
    requires Sound(s, d) && s.accelOwner.Some? && !CommandBusy(d) && i < |s.tasks|
    ensures var s' := ServeAccelerator(s, Some(CommandStatus(d)));
      && (Beyond(s.tasks[i], stage) || (s.accelOwner == Some(i) && Stage(s.tasks[i]) >= stage) ==>
            Beyond(s'.tasks[i], stage))
      && (s.accelOwner != Some(i) ==> s'.tasks[i] == s.tasks[i] && s'.dmaOwner == s.dmaOwner)
  {
    assert TaskOk(s, s.accelOwner.value);
  }

  lemma OwnersDiffer(s: Sched, i: nat)
    requires Structure(s) && i < |s.tasks|
    ensures !(s.dmaOwner == Some(i) && s.accelOwner == Some(i))
    ensures s.dmaOwner == Some(i) || s.accelOwner == Some(i) ==> !s.tasks[i].state.Ready?
  {
    assert TaskOk(s, i);
  }

  lemma MoveAwaits(env: Env, e: Engine, i: nat, stage: nat, start: nat, m: Move, s: Sched, d: Device, s': Sched,
                   d': Device)
    requires Sound(s, d) && Moves(env, m, s, d, s', d') && Awaiting(env, e, i, stage, start, s, d)
    ensures Awaiting(env, e, i, stage, start, s', d')
  {
    OwnersDiffer(s, i);
    match m
    case HardwareTicks => TickAwaits(env, e, i, stage, start, s, d);
    case DmaWakes => DmaWakeupServes(s, d, i, stage);
    case AcceleratorWakes => CommandWakeupServes(s, d, i, stage);
    case DmaLaunches(k) => DmaLaunchAwaits(env, e, i, stage, start, k, s, d, d');
    case AcceleratorLaunches(k) => CommandLaunchAwaits(env, e, i, stage, start, k, s, d, d');
    case Unseen =>
  }

  lemma DmaLaunchAwaits(env: Env, e: Engine, i: nat, stage: nat, start: nat, k: nat, s: Sched, d: Device, d': Device)
    requires Structure(s) && k < |s.tasks| && Candidate(s, k) && IsDmaPhase(s.tasks[k].phase)
    requires d'.time == d.time && SameCommand(d, d') && Awaiting(env, e, i, stage, start, s, d)
    ensures Awaiting(env, e, i, stage, start, Launch(s, k), d')
  {
    OwnersDiffer(s, i);
  }

  lemma CommandLaunchAwaits(env: Env, e: Engine, i: nat, stage: nat, start: nat, k: nat, s: Sched, d: Device,
                            d': Device)
    requires Structure(s) && k < |s.tasks| && Candidate(s, k) && s.tasks[k].phase.Execute?
    requires d'.time == d.time && SameDma(d, d') && Awaiting(env, e, i, stage, start, s, d)
    ensures Awaiting(env, e, i, stage, start, Launch(s, k), d')
  {
    OwnersDiffer(s, i);
  }

  ghost function Awaits(env: Env, e: Engine, i: nat, stage: nat, start: nat): Property {
    (s, d) => Awaiting(env, e, i, stage, start, s, d)
  }

  lemma AwaitingIsStable(env: Env, e: Engine, i: nat, stage: nat, start: nat)
    ensures Stable(env, Awaits(env, e, i, stage, start))
  {
    var P := Awaits(env, e, i, stage, start);
    forall m, s, d, s', d' | Sound(s, d) && Moves(env, m, s, d, s', d') && P(s, d)
      ensures P(s', d')
    {
      MoveAwaits(env, e, i, stage, start, m, s, d, s', d');
    }
  }

  /** Without a completion of its engine, an owner is exactly where it was after the call. */
  lemma NoEventKeepsOwner(s: Sched, ev: Events, e: Engine)
    requires Structure(s) && Owner(e, s).Some? && EventOf(e, ev).None?
    ensures var i := Owner(e, s).value; var s' := StepCall(s, ev);
      i < |s'.tasks| && s'.tasks[i] == s.tasks[i] && Owner(e, s') == Some(i)
  {
    var i := Owner(e, s).value;
    assert TaskOk(s, i);
    ServedOwners(s, ev);
    OwnerServedFrame(s, ev, i);
    ServedKeepsStructure(s, ev);
    var s1 := SchedulerSteps.Served(s, ev);
    ProceedFrame(s1, i);
    ProceedKeepsStructure(s1);
    assert TaskOk(Proceed(s1), i);
  }

  lemma OwnerServedFrame(s: Sched, ev: Events, i: nat)
    requires Structure(s) && i < |s.tasks|
    requires s.tasks[i].state.BlockedOnDma? ==> ev.dma.None?
    requires s.tasks[i].state.BlockedOnAccel? ==> ev.accelerator.None?
    ensures i < |SchedulerSteps.Served(s, ev).tasks| && SchedulerSteps.Served(s, ev).tasks[i] == s.tasks[i]
  {
    var s1 := CountCall(s);
    CountersKeepStructure(s, s1);
    if ev.dma.Some? {
      ServeDmaFrame(s1, ev.dma, i);
    }
    ServeDmaKeepsStructure(s1, ev.dma);
    if ev.accelerator.Some? {
      ServeAcceleratorFrame(ServeDma(s1, ev.dma), ev.accelerator, i);
    }
  }

  /** An operation that the next call does not observe is in flight, the environment waiting. */
  lemma UnobservedIsBusy(env: Env, s: Sched, d: Device, e: Engine)
    requires Sound(s, d) && Owner(e, s).Some? && EventOf(e, CallEvents(env, d)).None?
    ensures Busy(e, d) && Busy(e, Tick(env, d)) && VerdictOf(e, env(d.time)).Waiting? && Tick(env, d).time == d.time + 1
  {
    TickBusy(env, e, d);
    if !Busy(e, Tick(env, d)) {
      FinishedIsObserved(env, s, d, e);
    }
  }

  lemma AwaitingStarts(env: Env, s: Sched, d: Device, e: Engine, i: nat)
    requires Sound(s, d) && Owner(e, s) == Some(i) && EventOf(e, CallEvents(env, d)).None?
    ensures i < |s.tasks| && Awaiting(env, e, i, Stage(s.tasks[i]), d.time, CountCall(s), Tick(env, d))
  {
    UnobservedIsBusy(env, s, d, e);
  }

  /** It has the same owner after that call, and if still in flight, the environment has been waiting all
      through the call. */
  lemma UnobservedHasWaited(env: Env, s: Sched, d: Device, e: Engine)
    requires Sound(s, d) && Owner(e, s).Some? && EventOf(e, CallEvents(env, d)).None?
    ensures var o := RunOnce(env, System(s, d)).system;
      && Owner(e, o.sched) == Owner(e, s) && o.device.time > d.time
      && (Busy(e, o.device) ==> Waited(env, e, d.time, o.device.time))
  {
    var i := Owner(e, s).value;
    assert TaskOk(s, i);
    AwaitingStarts(env, s, d, e, i);
    var P := Awaits(env, e, i, Stage(s.tasks[i]), d.time);
    AwaitingIsStable(env, e, i, Stage(s.tasks[i]), d.time);
    CallSurvivesAfterFirstAccess(P, env, s, d);
    RunOnceExact(env, s, d);
    NoEventKeepsOwner(s, CallEvents(env, d), e);
  }

  /** A finished operation of an owner raises the interrupt line and is observed by the next call. */
  lemma FinishedIsObserved(env: Env, s: Sched, d: Device, e: Engine)
    requires Sound(s, d) && Owner(e, s).Some? && !Busy(e, Tick(env, d))
    ensures EventOf(e, CallEvents(env, d)).Some?
  {
    TickKeeps(env, s, d);
    var d1 := Tick(env, d);
    var bit := if e.DmaEngine? then IRQ_DMA_DONE_BIT else IRQ_CMD_DONE_BIT;
    assert Test(d1.irqPending, bit) && Test(Peek(d1, REG_IRQ_ENABLE), bit);
    PendingAsserts(d1, bit);
    TickKeeps(env, s, d1);
    TickBusy(env, e, d1);
  }

  lemma PendingAsserts(d: Device, bit: nat)
    requires Test(d.irqPending, bit) && Test(Peek(d, REG_IRQ_ENABLE), bit)
    ensures IrqAsserted(d)
  {
    ZeroHasNoBits(bit);
    assert Test(And(d.irqPending, Peek(d, REG_IRQ_ENABLE)), bit);
  }

  // ---- Fair environments are prompt ----

  /** The operation in flight on the engine has been waiting at least for the last `age` accesses. */
  ghost predicate Aged(env: Env, e: Engine, age: nat, s: Sched, d: Device) {
    Owner(e, s).Some? && Busy(e, d) ==> age <= d.time && Waited(env, e, d.time - age, d.time)
  }

  lemma CallAges(env: Env, s: Sched, d: Device, e: Engine, age: nat)
    requires Sound(s, d) && Aged(env, e, age, s, d)
    ensures var o := RunOnce(env, System(s, d)).system;
      Aged(env, e, Age(Owner(e, s), EventOf(e, CallEvents(env, d)), age), o.sched, o.device)
  {
    if Owner(e, s).Some? && EventOf(e, CallEvents(env, d)).None? {
      UnobservedIsBusy(env, s, d, e);
      UnobservedHasWaited(env, s, d, e);
    }
  }

  lemma FairIsPrompt(env: Env, bound: nat, s: Sched, d: Device, e: Engine, age: nat)
    requires Sound(s, d) && Fair(env, bound) && Aged(env, e, age, s, d)
    requires Owner(e, s).Some? && age + 1 >= bound
    ensures EventOf(e, CallEvents(env, d)).Some?
  {
    if EventOf(e, CallEvents(env, d)).None? {
      UnobservedIsBusy(env, s, d, e);
      assert Waited(env, e, d.time - age, d.time + 1);
    }
  }

  /** The completions the next `n` calls observe. */
  function EventRun(env: Env, sys: System, n: nat): (evs: seq<Events>)
    requires Indexed(sys.sched)
    ensures |evs| == n
    decreases n
  {
    if n == 0 then [] else [CallEvents(env, sys.device)] + EventRun(env, RunOnce(env, sys).system, n - 1)
  }

  lemma EventRunTail(env: Env, sys: System, n: nat)
    requires Indexed(sys.sched) && n != 0
    ensures EventRun(env, sys, n)[0] == CallEvents(env, sys.device)
    ensures EventRun(env, sys, n)[1..] == EventRun(env, RunOnce(env, sys).system, n - 1)
  {
  }

  lemma OneStepLess(s: Sched, evs: seq<Events>)
    requires Indexed(s) && |evs| != 0
    ensures Exec(s, Calls(evs)) == Exec(StepCall(s, evs[0]), Calls(evs[1..]))
  {
    CallsTail(evs);
  }

  lemma OneEventLess(env: Env, sys: System, n: nat)
    requires Indexed(sys.sched) && n != 0
    ensures Exec(sys.sched, Calls(EventRun(env, sys, n)))
         == Exec(StepCall(sys.sched, CallEvents(env, sys.device)),
                 Calls(EventRun(env, RunOnce(env, sys).system, n - 1)))
  {
    OneStepLess(sys.sched, EventRun(env, sys, n));
    EventRunTail(env, sys, n);
  }

  lemma {:induction false} RunOfCalls(env: Env, sys: System, n: nat)
    requires Sound(sys.sched, sys.device)
    ensures Run(env, sys, Only(n)).sched == Exec(sys.sched, Calls(EventRun(env, sys, n)))
    decreases n
  {
    if n != 0 {
      var next := RunOnce(env, sys).system;
      RunOnceExact(env, sys.sched, sys.device);
      RunOfCalls(env, next, n - 1);
      RunOfOneMore(env, sys, next, n);
    }
  }

  lemma RunOfOneMore(env: Env, sys: System, next: System, n: nat)
    requires Sound(sys.sched, sys.device) && n != 0 && next == RunOnce(env, sys).system
    requires next.sched == StepCall(sys.sched, CallEvents(env, sys.device))
    requires Run(env, next, Only(n - 1)).sched == Exec(next.sched, Calls(EventRun(env, next, n - 1)))
    ensures Run(env, sys, Only(n)).sched == Exec(sys.sched, Calls(EventRun(env, sys, n)))
  {
    OneCallLess(env, sys, n);
    OneEventLess(env, sys, n);
  }

  lemma {:induction false} FairRunIsPrompt(env: Env, bound: nat, t: Timed, d: Device, n: nat)
    requires Sound(t.s, d) && Fair(env, bound)
    requires Aged(env, DmaEngine, t.dmaAge, t.s, d) && Aged(env, AcceleratorEngine, t.accelAge, t.s, d)
    ensures Prompt(t, EventRun(env, System(t.s, d), n), bound)
    decreases n
  {
    if n != 0 {
      var sys := System(t.s, d);
      var ev := CallEvents(env, d);
      EventRunTail(env, sys, n);
      FairCallIsPrompt(env, bound, t, d);
      RunOnceExact(env, t.s, d);
      CallAges(env, t.s, d, DmaEngine, t.dmaAge);
      CallAges(env, t.s, d, AcceleratorEngine, t.accelAge);
      FairRunIsPrompt(env, bound, TimedCall(t, ev), RunOnce(env, sys).system.device, n - 1);
    }
  }

  lemma FairCallIsPrompt(env: Env, bound: nat, t: Timed, d: Device)
    requires Sound(t.s, d) && Fair(env, bound)
    requires Aged(env, DmaEngine, t.dmaAge, t.s, d) && Aged(env, AcceleratorEngine, t.accelAge, t.s, d)
    ensures PromptCall(t, CallEvents(env, d), bound)
  {
    if t.s.dmaOwner.Some? && t.dmaAge + 1 >= bound {
      FairIsPrompt(env, bound, t.s, d, DmaEngine, t.dmaAge);
    }
    if t.s.accelOwner.Some? && t.accelAge + 1 >= bound {
      FairIsPrompt(env, bound, t.s, d, AcceleratorEngine, t.accelAge);
    }
  }

  /** Termination next to the device, from any linked state, with anything in flight: if the environment
      never makes an engine wait `bound` register accesses in a row, all tasks are terminal after one
      call, `bound` more for every operation still to dispatch, and `bound` more for each operation in
      flight. */
  lemma FairTermination(env: Env, bound: nat, s: Sched, d: Device, n: nat)
    requires Sound(s, d) && Fair(env, bound) && bound >= 1
    requires n >= 1 + Weight(Timed(s, 0, 0), bound)
    ensures AllTerminal(Run(env, System(s, d), Only(n)).sched)
  {
    FairRunIsPrompt(env, bound, Timed(s, 0, 0), d, n);
    TerminationBound(Timed(s, 0, 0), EventRun(env, System(s, d), n), bound);
    RunOfCalls(env, System(s, d), n);
  }

  /** From boot, after any activities, submissions and calls in any order: 1 + bound * (total stages) more
      calls make every task terminal. */
  lemma EverythingTerminates(env: Env, d: Device, interval: U32, activities: seq<Activity>, bound: nat, n: nat)
    requires Idle(d) && Fair(env, bound) && bound >= 1
    requires n >= 1 + bound * TotalStages(Run(env, Started(env, d, interval), activities).sched.tasks)
    ensures AllTerminal(Run(env, Started(env, d, interval), activities + Only(n)).sched)
  {
    BootLinks(env, d, interval);
    var start := Started(env, d, interval);
    RunsAreExecutions(env, start, activities);
    var mid := Run(env, start, activities);
    WeightAtMostStages(mid.sched, bound);
    FairTermination(env, bound, mid.sched, mid.device, n);
    RunInParts(env, start, activities, Only(n));
  }
}

/** Whole runs of the scheduler next to the device, from boot. */
module Runs {
  import opened Words
  import opened Soc
  import opened DeviceModel
  import opened DriverProtocol
  import opened Tasks
  import opened SchedulerSpec
  import opened SchedulerSteps
  import opened Protocol
  import opened Interference
  import opened Accounting

  /** What the application does: submit a workload, or call the scheduler once. */
  datatype Activity = Submitting(request: Request) | Calling

  function Act(env: Env, sys: System, a: Activity): (sys': System)
    requires Indexed(sys.sched)
    ensures Indexed(sys'.sched)
  {
    match a
    case Submitting(r) => sys.(sched := Submit(sys.sched, r).0)
    case Calling => RunOnce(env, sys).system
  }

  function Run(env: Env, sys: System, activities: seq<Activity>): (sys': System)
    requires Indexed(sys.sched)
    ensures Indexed(sys'.sched)
    decreases |activities|
  {
    if |activities| == 0 then sys else Run(env, Act(env, sys, activities[0]), activities[1..])
  }

  /** No exception leaves any scheduler call of the run. */
  predicate NothingEscapes(env: Env, sys: System, activities: seq<Activity>)
    requires Indexed(sys.sched)
    decreases |activities|
  {
    |activities| == 0
    || ((activities[0].Calling? ==> RunOnce(env, sys).thrown.None?)
        && NothingEscapes(env, Act(env, sys, activities[0]), activities[1..]))
  }

  /** The actions of a run: its submissions, and its calls with the completions each one observes. */
  function Trace(env: Env, sys: System, activities: seq<Activity>): (actions: seq<Action>)
    requires Indexed(sys.sched)
    ensures |actions| == |activities|
    decreases |activities|
  {
    if |activities| == 0 then []
    else
      [match activities[0]
       case Submitting(r) => Submission(r)
       case Calling => Call(CallEvents(env, sys.device))]
      + Trace(env, Act(env, sys, activities[0]), activities[1..])
  }

  // ---- Boot ----

  /** Hardware idle: nothing in flight. Pending bits and status bits may be left over. */
  predicate Idle(d: Device) {
    !DmaBusy(d) && !CommandBusy(d)
  }

  /** The empty scheduler and the device that `boot` leaves, whether or not it throws. */
  function Started(env: Env, d: Device, interval: U32): (sys: System)
    ensures Indexed(sys.sched)
  {
    System(EMPTY, Boot(env, d, interval).device)
  }

  /** A write to a configuration register stores its value and leaves the other ones alone. */
  lemma ConfigurationIsStored(env: Env, d: Device, o: Offset, value: U32, p: Offset)
    requires Configures(o) && Configures(p)
    ensures Peek(Write(env, d, o, value), p) == if p == o then value else Peek(d, p)
  {
    TickKeepsRegister(env, d, p);
  }

  lemma SourcesAreEnabled(env: Env, d: Device)
    ensures var d' := EnableSources(env, d);
      && Peek(d', REG_CTRL) == RegisterBit(CTRL_ENABLE_BIT) && Peek(d', REG_IRQ_ENABLE) == InterruptMask()
      && Peek(d', REG_TIMER_CTRL) == Peek(d, REG_TIMER_CTRL)
      && Booted(d')
  {
    var first := RegisterBit(CTRL_ENABLE_BIT);
    var d1 := Write(env, d, REG_CTRL, first);
    var mask := InterruptMask();
    ConfigurationIsStored(env, d, REG_CTRL, first, REG_CTRL);
    ConfigurationIsStored(env, d, REG_CTRL, first, REG_TIMER_CTRL);
    ConfigurationIsStored(env, d1, REG_IRQ_ENABLE, mask, REG_CTRL);
    ConfigurationIsStored(env, d1, REG_IRQ_ENABLE, mask, REG_TIMER_CTRL);
    ConfigurationIsStored(env, d1, REG_IRQ_ENABLE, mask, REG_IRQ_ENABLE);
  }

  lemma IdleStaysIdle(env: Env, d: Device)
    requires Idle(d)
    ensures Idle(Tick(env, d)) && SameHistory(d, Tick(env, d))
  {
    TickDmaKeeps(EMPTY, d, env(d.time).dma);
    TickAcceleratorKeeps(EMPTY, d, env(d.time).accelerator);
  }

  lemma EnablingLinks(env: Env, d: Device)
    requires Idle(d)
    ensures var d' := EnableSources(env, d); Sound(EMPTY, d') && Idle(d') && SameHistory(d, d')
  {
    SourcesAreEnabled(env, d);
    IdleWriteKeeps(env, d, REG_CTRL, RegisterBit(CTRL_ENABLE_BIT));
    IdleWriteKeeps(env, Write(env, d, REG_CTRL, RegisterBit(CTRL_ENABLE_BIT)), REG_IRQ_ENABLE, InterruptMask());
  }

  lemma IdleWriteKeeps(env: Env, d: Device, o: Offset, value: U32)
    requires Idle(d) && (o == REG_CTRL || o == REG_IRQ_ENABLE)
    ensures Idle(Write(env, d, o, value)) && SameHistory(d, Write(env, d, o, value))
  {
    IdleStaysIdle(env, d);
  }

  lemma TimerWriteKeepsIdle(env: Env, d: Device, word: U32)
    requires Idle(d) && Sound(EMPTY, d)
    ensures var d' := Write(env, d, REG_TIMER_CTRL, word); Sound(EMPTY, d') && Idle(d') && SameHistory(d, d')
  {
    IdleStaysIdle(env, d);
    TickKeeps(env, EMPTY, d);
  }

  /** After boot on idle hardware the empty scheduler and the device are linked, whatever is pending and
      whatever the timer interval; only an interval out of range throws. */
  lemma BootLinks(env: Env, d: Device, interval: U32)
    requires Idle(d)
    ensures var sys := Started(env, d, interval);
      Sound(EMPTY, sys.device) && sys.sched == EMPTY && Idle(sys.device) && SameHistory(d, sys.device)
    ensures Boot(env, d, interval).thrown.Some? <==> interval > MAX_TIMER_INTERVAL
  {
    EnablingLinks(env, d);
    var enabled := EnableSources(env, d);
    if interval <= MAX_TIMER_INTERVAL {
      TimerWriteKeepsIdle(env, enabled, if interval == 0 then 0 else TimerWord(interval));
    }
  }

  /** The SoC as booted: execution enabled, the five interrupt sources enabled, and the timer stopped for interval
      0, running periodically with the interval in the upper 24 bits for one that fits, and as it was for
      one that does not. */
  ghost predicate ConfiguredFor(before: Device, interval: U32, d: Device) {
    && (forall b: nat :: Test(Peek(d, REG_CTRL), b) <==> b == 0)
    && (forall b: nat :: Test(Peek(d, REG_IRQ_ENABLE), b) <==> b < 5)
    && (interval == 0 ==> Peek(d, REG_TIMER_CTRL) == 0)
    && (0 < interval < 0x100_0000 ==>
          forall b: nat :: Test(Peek(d, REG_TIMER_CTRL), b) <==> b == 0 || b == 1 || (b >= 8 && Test(interval, b - 8)))
    && (interval >= 0x100_0000 ==> Peek(d, REG_TIMER_CTRL) == Peek(before, REG_TIMER_CTRL))
  }

  lemma BootConfigures(env: Env, d: Device, interval: U32)
    ensures ConfiguredFor(d, interval, Boot(env, d, interval).device)
  {
    SourcesAreEnabled(env, d);
    if interval <= MAX_TIMER_INTERVAL {
      TimerWriteConfigures(env, EnableSources(env, d), if interval == 0 then 0 else TimerWord(interval));
    }
  }

  lemma TimerWriteConfigures(env: Env, d: Device, word: U32)
    ensures var d' := Write(env, d, REG_TIMER_CTRL, word);
      && Peek(d', REG_TIMER_CTRL) == word
      && Peek(d', REG_CTRL) == Peek(d, REG_CTRL) && Peek(d', REG_IRQ_ENABLE) == Peek(d, REG_IRQ_ENABLE)
  {
    ConfigurationIsStored(env, d, REG_TIMER_CTRL, word, REG_TIMER_CTRL);
    ConfigurationIsStored(env, d, REG_TIMER_CTRL, word, REG_CTRL);
    ConfigurationIsStored(env, d, REG_TIMER_CTRL, word, REG_IRQ_ENABLE);
  }

  // ---- Runs are executions ----

  lemma LinkSurvivesSubmission(s: Sched, d: Device, r: Request)
    requires Sound(s, d)
    ensures Sound(Submit(s, r).0, d)
  {
    SubmitKeepsStructure(s, r);
  }

  lemma ActIsStep(env: Env, sys: System, a: Activity)
    requires Sound(sys.sched, sys.device)
    ensures var sys' := Act(env, sys, a);
      Sound(sys'.sched, sys'.device) && sys'.sched == Step(sys.sched, Trace(env, sys, [a])[0])
    ensures a.Calling? ==> RunOnce(env, sys).thrown.None?
  {
    match a
    case Submitting(r) => LinkSurvivesSubmission(sys.sched, sys.device, r);
    case Calling => RunOnceExact(env, sys.sched, sys.device);
  }

  /** Every run next to the device, under every interference, is an execution of `Step`s: no exception
      escapes, ownership and the link hold throughout, and all theorems about `Exec` apply. */
  lemma {:induction false} RunsAreExecutions(env: Env, sys: System, activities: seq<Activity>)
    requires Sound(sys.sched, sys.device)
    ensures var sys' := Run(env, sys, activities);
      Sound(sys'.sched, sys'.device) && sys'.sched == Exec(sys.sched, Trace(env, sys, activities))
    ensures NothingEscapes(env, sys, activities)
    decreases |activities|
  {
    if |activities| != 0 {
      var a := activities[0];
      ActIsStep(env, sys, a);
      RunsAreExecutions(env, Act(env, sys, a), activities[1..]);
      var trace := Trace(env, sys, activities);
      assert trace[0] == Trace(env, sys, [a])[0];
      assert trace[1..] == Trace(env, Act(env, sys, a), activities[1..]);
    }
  }

  ghost predicate SurvivesSubmission(P: Property) {
    forall s, d, r :: Sound(s, d) && P(s, d) ==> P(Submit(s, r).0, d)
  }

  /** A stable predicate that submissions keep holds throughout every run. */
  lemma {:induction false} RunSurvives(P: Property, env: Env, sys: System, activities: seq<Activity>)
    requires Stable(env, P) && SurvivesSubmission(P)
    requires Sound(sys.sched, sys.device) && P(sys.sched, sys.device)
    ensures var sys' := Run(env, sys, activities); Sound(sys'.sched, sys'.device) && P(sys'.sched, sys'.device)
    decreases |activities|
  {
    if |activities| != 0 {
      var a := activities[0];
      ActIsStep(env, sys, a);
      if a.Calling? {
        CallSurvives(P, env, sys.sched, sys.device);
      }
      RunSurvives(P, env, Act(env, sys, a), activities[1..]);
    }
  }

  // ---- Runs of calls, runs of submissions, runs in parts ----

  /** A run of calls only. */
  function Only(n: nat): (activities: seq<Activity>)
    ensures |activities| == n
  {
    seq(n, _ => Calling)
  }

  lemma OneCallLess(env: Env, sys: System, n: nat)
    requires Indexed(sys.sched) && n != 0
    ensures Run(env, sys, Only(n)) == Run(env, RunOnce(env, sys).system, Only(n - 1))
  {
    assert Only(n)[0] == Calling && Only(n)[1..] == Only(n - 1);
  }

  /** A run of submissions only. */
  function Submissions(requests: seq<Request>): (activities: seq<Activity>)
    ensures |activities| == |requests|
  {
    seq(|requests|, i requires 0 <= i < |requests| => Submitting(requests[i]))
  }

  /** Tasks just submitted. */
  predicate Fresh(s: Sched) {
    && s.dmaOwner.None? && s.accelOwner.None?
    && forall i :: 0 <= i < |s.tasks| ==>
      s.tasks[i].state.Ready? && s.tasks[i].phase == InitialPhase(s.tasks[i].workload)
  }

  lemma {:induction false} SubmissionsAreFresh(env: Env, sys: System, requests: seq<Request>)
    requires Sound(sys.sched, sys.device) && Fresh(sys.sched)
    ensures var sys' := Run(env, sys, Submissions(requests));
      && Sound(sys'.sched, sys'.device) && Fresh(sys'.sched) && sys'.device == sys.device
      && sys'.sched == sys.sched.(tasks := sys'.sched.tasks)
    decreases |requests|
  {
    if |requests| != 0 {
      assert Submissions(requests)[1..] == Submissions(requests[1..]);
      ActIsStep(env, sys, Submitting(requests[0]));
      SubmissionsAreFresh(env, Act(env, sys, Submitting(requests[0])), requests[1..]);
    }
  }

  lemma {:induction false} RunInParts(env: Env, sys: System, a: seq<Activity>, b: seq<Activity>)
    requires Indexed(sys.sched)
    ensures Run(env, sys, a + b) == Run(env, Run(env, sys, a), b)
    decreases |a|
  {
    if |a| == 0 {
      assert a + b == b;
    } else {
      assert (a + b)[1..] == a[1..] + b;
      RunInParts(env, Act(env, sys, a[0]), a[1..], b);
    }
  }

  // ---- From boot ----

  /** What every execution from the empty scheduler keeps. */
  lemma ExecutionGuarantees(actions: seq<Action>)
    ensures var s := Exec(EMPTY, actions);
      && Structure(s) && Accounted(s) && Completed(s) && OnTime(s, 0)
      && |s.dispatchOrder| <= 64
      && s.calls == |s.dispatchOrder| + s.stalls + IdleCalls(EMPTY, actions)
  {
    RunsKeepStructure(EMPTY, actions);
    StageAccounting(EMPTY, actions);
    DispatchBound(Exec(EMPTY, actions));
    CompletionOrder(EMPTY, actions);
    CompletionTiming(EMPTY, actions);
    CallConservation(EMPTY, actions);
  }

  /** Everything a run from boot keeps, on any idle hardware and under any interference: no exception
      escapes a call; ownership; stage accounting with at most 64 dispatches; the completion order;
      completion timing; and calls = dispatches + stalls + calls made when all tasks were terminal. */
  lemma FromBoot(env: Env, d: Device, interval: U32, activities: seq<Activity>)
    requires Idle(d)
    ensures var start := Started(env, d, interval);
      var s := Run(env, start, activities).sched;
      && NothingEscapes(env, start, activities)
      && Structure(s) && Accounted(s) && Completed(s) && OnTime(s, 0)
      && |s.dispatchOrder| <= 64
      && s.calls == |s.dispatchOrder| + s.stalls + IdleCalls(EMPTY, Trace(env, start, activities))
  {
    BootLinks(env, d, interval);
    var start := Started(env, d, interval);
    RunsAreExecutions(env, start, activities);
    ExecutionGuarantees(Trace(env, start, activities));
  }

  function Configured(before: Device): Property {
    (s, d) => SameConfiguration(before, d)
  }

  lemma TickKeepsConfiguration(env: Env, d: Device)
    ensures SameConfiguration(d, Tick(env, d))
  {
    TickKeepsRegister(env, d, REG_CTRL);
    TickKeepsRegister(env, d, REG_IRQ_ENABLE);
    TickKeepsRegister(env, d, REG_TIMER_CTRL);
  }

  lemma ConfigurationIsStable(env: Env, before: Device)
    ensures Stable(env, Configured(before)) && SurvivesSubmission(Configured(before))
  {
    var P := Configured(before);
    forall m, s, d, s', d' | Sound(s, d) && Moves(env, m, s, d, s', d') && P(s, d)
      ensures P(s', d')
    {
      MoveKeepsConfiguration(env, m, s, d, s', d');
    }
  }

  lemma MoveKeepsConfiguration(env: Env, m: Move, s: Sched, d: Device, s': Sched, d': Device)
    requires Sound(s, d) && Moves(env, m, s, d, s', d')
    ensures SameConfiguration(d, d')
  {
    if m.HardwareTicks? {
      TickKeepsConfiguration(env, d);
    }
  }

  /** The SoC stays as booted in every state of every run: commands keep being executed and completions keep
      being signalled, and the timer keeps its interval. */
  lemma StaysConfigured(env: Env, d: Device, interval: U32, activities: seq<Activity>)
    requires Idle(d)
    ensures ConfiguredFor(d, interval, Run(env, Started(env, d, interval), activities).device)
  {
    BootLinks(env, d, interval);
    BootConfigures(env, d, interval);
    var start := Started(env, d, interval);
    ConfigurationIsStable(env, start.device);
    assert Configured(start.device)(start.sched, start.device);
    RunSurvives(Configured(start.device), env, start, activities);
  }

  /** Completions left over from before boot or from earlier operations wake nobody, whether the other resource
      is in use or not: for a resource without an owner the call has the very effect it would have had
      without the completion. An operation launched by the call starts with no completion pending. */
  lemma StaleCompletionsWakeNobody(env: Env, s: Sched, d: Device)
    requires Sound(s, d)
    ensures var ev := CallEvents(env, d); var o := RunOnce(env, System(s, d)).system;
      && (s.dmaOwner.None? ==> o.sched == StepCall(s, ev.(dma := None)))
      && (s.accelOwner.None? ==> o.sched == StepCall(s, ev.(accelerator := None)))
      && LaunchInFlight(Served(s, ev), o.device)
  {
    RunOnceExact(env, s, d);
    var s1 := CountCall(s);
    CountersKeepStructure(s, s1);
    CommandLinkSurvivesDma(s1, CallEvents(env, d).dma, d);
  }
}

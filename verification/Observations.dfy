/** What the scheduler's observable counters and orders say about a run. */
module Observations {
  import opened Words
  import opened Soc
  import opened DeviceModel
  import opened Tasks
  import opened SchedulerSpec
  import opened SchedulerSteps
  import opened Protocol
  import opened Interference
  import opened Accounting
  import opened Priority
  import opened Runs
  import opened Liveness

  // ---- Dispatch order ----

  lemma CallGrowsDispatch(s: Sched, ev: Events)
    requires Indexed(s)
    ensures s.dispatchOrder <= StepCall(s, ev).dispatchOrder
  {
    ServeKeepsCounts(s, ev);
    ProceedGrowsDispatch(Served(s, ev));
  }

  lemma ProceedGrowsDispatch(s: Sched)
    requires Indexed(s)
    ensures s.dispatchOrder <= Proceed(s).dispatchOrder
  {
  }

  /** Dispatches are only ever appended. */
  lemma {:induction false} DispatchGrows(s: Sched, evs: seq<Events>)
    requires Structure(s)
    ensures s.dispatchOrder <= Exec(s, Calls(evs)).dispatchOrder
    decreases |evs|
  {
    if |evs| != 0 {
      CallGrowsDispatch(s, evs[0]);
      StepKeepsStructure(s, Call(evs[0]));
      OneStepLess(s, evs);
      DispatchGrows(StepCall(s, evs[0]), evs[1..]);
    }
  }

  /** The first call dispatches the task which outranks all others. */
  lemma FirstSelection(s: Sched, ev: Events) returns (i: nat)
    requires Structure(s) && Fresh(s) && s.dispatchOrder == [] && |s.tasks| != 0
    ensures i < |s.tasks| && StepCall(s, ev).dispatchOrder == [i]
    ensures forall j :: 0 <= j < |s.tasks| && j != i ==> Outranks(s.tasks, i, j)
  {
    var s1 := Served(s, ev);
    ServedFresh(s, ev);
    ServeKeepsCounts(s, ev);
    assert Candidate(s1, 0);
    SelectAmongBest(s1, |s1.tasks|, 0);
    i := SelectReady(s1).value;
    SelectionIsBest(s1, i);
    forall j | 0 <= j < |s.tasks| && j != i
      ensures Outranks(s.tasks, i, j)
    {
      assert Candidate(s1, j);
    }
  }

  lemma ServedFresh(s: Sched, ev: Events)
    requires Structure(s) && Fresh(s)
    ensures Served(s, ev).tasks == s.tasks && Served(s, ev).dmaOwner.None? && Served(s, ev).accelOwner.None?
  {
  }

  /** So the first operation of a freshly submitted workload is that task's. */
  lemma FirstDispatch(s: Sched, evs: seq<Events>)
    requires Structure(s) && Fresh(s) && s.dispatchOrder == [] && |s.tasks| != 0 && |evs| != 0
    ensures var order := Exec(s, Calls(evs)).dispatchOrder;
      && |order| != 0 && order[0] < |s.tasks|
      && forall j :: 0 <= j < |s.tasks| && j != order[0] ==> Outranks(s.tasks, order[0], j)
  {
    var i := FirstSelection(s, evs[0]);
    StepKeepsStructure(s, Call(evs[0]));
    OneStepLess(s, evs);
    DispatchGrows(StepCall(s, evs[0]), evs[1..]);
    assert Exec(s, Calls(evs)).dispatchOrder[0] == i;
  }

  // ---- Completion order ----

  /** The number of DONE tasks among the first `n`. */
  function DoneCount(tasks: seq<Task>, n: nat): nat
    requires n <= |tasks|
  {
    if n == 0 then 0 else DoneCount(tasks, n - 1) + (if tasks[n - 1].state.Done? then 1 else 0)
  }

  lemma {:induction false} OnceEach(order: seq<nat>, x: nat)
    requires forall j, k :: 0 <= j < k < |order| ==> order[j] != order[k]
    ensures multiset(order)[x] <= 1
    ensures x in order <==> multiset(order)[x] == 1
    decreases |order|
  {
    if |order| != 0 {
      var n := |order| - 1;
      assert order == order[..n] + [order[n]];
      OnceEach(order[..n], x);
    }
  }

  lemma {:induction false} CountsDone(s: Sched, m: multiset<nat>, n: nat)
    requires n <= |s.tasks|
    requires forall i :: 0 <= i < n ==> m[i] == if s.tasks[i].state.Done? then 1 else 0
    ensures CountBelow(m, n) == DoneCount(s.tasks, n)
  {
    if n != 0 {
      CountsDone(s, m, n - 1);
    }
  }

  /** The completion order is exactly as long as there are DONE tasks. */
  lemma CompletionCount(s: Sched)
    requires Completed(s)
    ensures |s.completionOrder| == DoneCount(s.tasks, |s.tasks|)
  {
    var order := s.completionOrder;
    forall j, k | 0 <= j < k < |order|
      ensures order[j] != order[k]
    {
      assert s.tasks[order[j]].completedAt < s.tasks[order[k]].completedAt;
    }
    forall i | 0 <= i < |s.tasks|
      ensures multiset(order)[i] == if s.tasks[i].state.Done? then 1 else 0
    {
      OnceEach(order, i);
    }
    CountBelowAll(order, |s.tasks|);
    CountsDone(s, multiset(order), |s.tasks|);
  }

  lemma {:induction false} AllDoneCount(tasks: seq<Task>, n: nat)
    requires n <= |tasks| && forall i :: 0 <= i < |tasks| ==> tasks[i].state.Done?
    ensures DoneCount(tasks, n) == n
  {
    if n != 0 {
      AllDoneCount(tasks, n - 1);
    }
  }

  // ---- Stalls ----

  /** A call counts a stall if and only if, once it has served the completions, some task is unfinished and
      none can run. */
  lemma StallExactly(s: Sched, ev: Events)
    requires Indexed(s)
    ensures var s1 := Served(s, ev);
      StepCall(s, ev).stalls == s.stalls + (if !AllTerminal(s1) && SelectReady(s1).None? then 1 else 0)
  {
    ServeKeepsCounts(s, ev);
  }

  lemma NothingToSelect(s: Sched)
    requires AllTerminal(s)
    ensures SelectReady(s).None?
  {
  }

  /** A call ends with everything terminal exactly when serving the completions made it so. */
  lemma TerminalAfterCall(s: Sched, ev: Events)
    requires Structure(s)
    ensures AllTerminal(StepCall(s, ev)) <==> AllTerminal(Served(s, ev))
  {
    var s1 := Served(s, ev);
    ServedKeepsStructure(s, ev);
    match SelectReady(s1)
    case None =>
    case Some(i) =>
      LaunchKeepsStructure(s1, i);
      assert !Terminal(s1.tasks[i]) && !Terminal(Launch(s1, i).tasks[i]);
  }

  /** The number of calls after which all tasks are terminal for the first time. */
  function FirstTerminal(s: Sched, evs: seq<Events>): nat
    requires Indexed(s)
    decreases |evs|
  {
    if AllTerminal(s) || |evs| == 0 then 0 else 1 + FirstTerminal(StepCall(s, evs[0]), evs[1..])
  }

  /** Once all tasks are terminal, calls change neither dispatches nor stalls. */
  lemma {:induction false} TerminalIsIdle(s: Sched, evs: seq<Events>)
    requires Structure(s) && AllTerminal(s)
    ensures var end := Exec(s, Calls(evs)); end.stalls == s.stalls && end.dispatchOrder == s.dispatchOrder
    decreases |evs|
  {
    if |evs| != 0 {
      var s' := StepCall(s, evs[0]);
      NoCallRevives(s, evs[0]);
      NothingToSelect(Served(s, evs[0]));
      ServeKeepsCounts(s, evs[0]);
      StepKeepsStructure(s, Call(evs[0]));
      OneStepLess(s, evs);
      TerminalIsIdle(s', evs[1..]);
    }
  }

  lemma NoCallRevives(s: Sched, ev: Events)
    requires Structure(s) && AllTerminal(s)
    ensures AllTerminal(Served(s, ev)) && AllTerminal(StepCall(s, ev))
  {
    forall i | 0 <= i < |s.tasks|
      ensures Terminal(Served(s, ev).tasks[i])
    {
      ServedPriorities(s, ev, i);
    }
    TerminalAfterCall(s, ev);
  }

  lemma WorkingCall(s: Sched, ev: Events)
    requires Structure(s) && !AllTerminal(s)
    ensures var s' := StepCall(s, ev);
      |s'.dispatchOrder| + s'.stalls == |s.dispatchOrder| + s.stalls + (if AllTerminal(s') then 0 else 1)
  {
    CallOutcome(s, ev);
    TerminalAfterCall(s, ev);
  }

  /** The stall count of a complete run: of the calls up to the first moment at which every task is
      terminal, the last one only serves, every other one dispatches or stalls. */
  lemma {:induction false} StallCount(s: Sched, evs: seq<Events>)
    requires Structure(s) && !AllTerminal(s) && AllTerminal(Exec(s, Calls(evs)))
    ensures var end := Exec(s, Calls(evs));
      (end.stalls - s.stalls) + (|end.dispatchOrder| - |s.dispatchOrder|) + 1 == FirstTerminal(s, evs) <= |evs|
    decreases |evs|
  {
    if |evs| != 0 {
      var s' := StepCall(s, evs[0]);
      WorkingCall(s, evs[0]);
      StepKeepsStructure(s, Call(evs[0]));
      OneStepLess(s, evs);
      if AllTerminal(s') {
        TerminalIsIdle(s', evs[1..]);
      } else {
        StallCount(s', evs[1..]);
      }
    }
  }

  /** As long as work is left every call dispatches or stalls. */
  lemma {:induction false} NoCallIsIdle(s: Sched, evs: seq<Events>)
    requires Structure(s) && !AllTerminal(Exec(s, Calls(evs)))
    ensures var end := Exec(s, Calls(evs));
      |end.dispatchOrder| + end.stalls == |s.dispatchOrder| + s.stalls + |evs|
    decreases |evs|
  {
    if |evs| != 0 {
      var s' := StepCall(s, evs[0]);
      StepKeepsStructure(s, Call(evs[0]));
      OneStepLess(s, evs);
      if AllTerminal(s) {
        NoCallRevives(s, evs[0]);
      }
      if AllTerminal(s') {
        StaysTerminal(s', evs[1..]);
      }
      WorkingCall(s, evs[0]);
      NoCallIsIdle(s', evs[1..]);
    }
  }

  lemma {:induction false} StaysTerminal(s: Sched, evs: seq<Events>)
    requires Structure(s) && AllTerminal(s)
    ensures AllTerminal(Exec(s, Calls(evs)))
    decreases |evs|
  {
    if |evs| != 0 {
      NoCallRevives(s, evs[0]);
      StepKeepsStructure(s, Call(evs[0]));
      OneStepLess(s, evs);
      StaysTerminal(StepCall(s, evs[0]), evs[1..]);
    }
  }

  /** The exact condition for a stall in a complete run that dispatches `work` operations: some task is still
      unfinished after the first work + 1 calls. */
  lemma StallsIff(s: Sched, first: seq<Events>, rest: seq<Events>, work: nat)
    requires Structure(s) && !AllTerminal(s) && |first| == work + 1
    requires var end := Exec(Exec(s, Calls(first)), Calls(rest));
      AllTerminal(end) && |end.dispatchOrder| == |s.dispatchOrder| + work
    ensures var half := Exec(s, Calls(first)); var end := Exec(half, Calls(rest));
      end.stalls >= s.stalls && (end.stalls != s.stalls <==> !AllTerminal(half))
  {
    var half := Exec(s, Calls(first));
    RunsKeepStructure(s, Calls(first));
    StallsOnlyGrow(s, first);
    StallsOnlyGrow(half, rest);
    DispatchGrows(half, rest);
    if AllTerminal(half) {
      TerminalIsIdle(half, rest);
      StallCount(s, first);
    } else {
      NoCallIsIdle(s, first);
    }
  }

  lemma {:induction false} StallsOnlyGrow(s: Sched, evs: seq<Events>)
    requires Structure(s)
    ensures Exec(s, Calls(evs)).stalls >= s.stalls
    decreases |evs|
  {
    if |evs| != 0 {
      StallExactly(s, evs[0]);
      StepKeepsStructure(s, Call(evs[0]));
      OneStepLess(s, evs);
      StallsOnlyGrow(StepCall(s, evs[0]), evs[1..]);
    }
  }

  // ---- The first transfer ----

  /** One task has a transfer in flight and all others wait for the DMA engine. */
  predicate AllNeedDma(s: Sched) {
    && s.dmaOwner.Some? && s.accelOwner.None?
    && forall j :: 0 <= j < |s.tasks| && s.dmaOwner != Some(j) ==>
      s.tasks[j].state.Ready? && IsDmaPhase(s.tasks[j].phase)
  }

  /** The first call starts a transfer, since every pipeline begins with one. */
  lemma FirstCall(s: Sched, ev: Events)
    requires Structure(s) && Fresh(s) && |s.tasks| != 0
    ensures var s1 := Served(s, ev); var s' := StepCall(s, ev);
      && SelectReady(s1).Some? && IsDmaPhase(s1.tasks[SelectReady(s1).value].phase)
      && AllNeedDma(s') && s'.stalls == s.stalls
  {
    var s1 := Served(s, ev);
    ServedFresh(s, ev);
    ServedKeepsStructure(s, ev);
    assert !Terminal(s1.tasks[0]);
    FreeResourcesSelect(s1);
    StallExactly(s, ev);
    LaunchKeepsStructure(s1, SelectReady(s1).value);
  }

  /** The second call stalls exactly if it does not observe the end of that transfer. */
  lemma SecondCall(s: Sched, ev: Events)
    requires Structure(s) && AllNeedDma(s)
    ensures StepCall(s, ev).stalls == s.stalls + (if ev.dma.None? then 1 else 0)
  {
    var s1 := Served(s, ev);
    ServedOwners(s, ev);
    ServedKeepsStructure(s, ev);
    StallExactly(s, ev);
    if ev.dma.None? {
      StillNeedDma(s, ev);
    } else if !AllTerminal(s1) {
      FreeResourcesSelect(s1);
    }
  }

  lemma StillNeedDma(s: Sched, ev: Events)
    requires Structure(s) && AllNeedDma(s) && ev.dma.None?
    ensures !AllTerminal(Served(s, ev)) && SelectReady(Served(s, ev)).None?
  {
    var s1 := Served(s, ev);
    assert TaskOk(s, s.dmaOwner.value);
    assert s1.tasks == s.tasks && s1.dmaOwner == s.dmaOwner;
    if SelectReady(s1).Some? {
      SelectedIsCandidate(s1);
    }
  }

  lemma SelectedIsCandidate(s: Sched)
    requires SelectReady(s).Some?
    ensures SelectReady(s).value < |s.tasks| && Candidate(s, SelectReady(s).value)
  {
  }

  /** When a call observes the end of a transfer that has just been started: it has finished by the first
      access, or the line is up for another reason and it has finished by the second one. */
  lemma ObservesExactly(env: Env, s: Sched, d: Device)
    requires Sound(s, d) && s.dmaOwner.Some? && DmaInFlight(d)
    ensures CallEvents(env, d).dma.Some? <==>
      !env(d.time).dma.Waiting? || (IrqAsserted(Tick(env, d)) && !env(d.time + 1).dma.Waiting?)
  {
    var d1 := Tick(env, d);
    TickBusy(env, DmaEngine, d);
    WaitingRaisesNothing(env, d);
    if !env(d.time).dma.Waiting? {
      FinishedIsObserved(env, s, d, DmaEngine);
    } else if IrqAsserted(d1) {
      WaitingRaisesNothing(env, d1);
    }
  }

  /** The DMA bit becomes pending exactly when the transfer in flight leaves the engine. */
  lemma WaitingRaisesNothing(env: Env, d: Device)
    requires DmaInFlight(d)
    ensures Test(Tick(env, d).irqPending, IRQ_DMA_DONE_BIT) <==> !env(d.time).dma.Waiting?
    ensures env(d.time).dma.Waiting? ==> DmaInFlight(Tick(env, d))
    ensures !env(d.time).dma.Waiting? ==> !DmaBusy(Tick(env, d))
    ensures Tick(env, d).time == d.time + 1
  {
    var step := env(d.time);
    var d1 := TickDma(d, step.dma);
    var d2 := TickAccelerator(d1, step.accelerator);
    var d3 := TickTimer(d2, step.timer);
    assert Test(d1.irqPending, IRQ_DMA_DONE_BIT) <==> !step.dma.Waiting?;
    assert Test(d2.irqPending, IRQ_DMA_DONE_BIT) <==> Test(d1.irqPending, IRQ_DMA_DONE_BIT);
    assert Test(d3.irqPending, IRQ_DMA_DONE_BIT) <==> Test(d2.irqPending, IRQ_DMA_DONE_BIT);
  }

  // ---- Hardware that finishes at once ----

  /** Hardware that finishes every operation by the next register access. */
  ghost predicate Eager(env: Env) {
    forall t: nat :: env(t).dma.Finish? && env(t).accelerator.Finish?
  }

  lemma FreeResourcesSelect(s: Sched)
    requires Structure(s) && s.dmaOwner.None? && s.accelOwner.None? && !AllTerminal(s)
    ensures SelectReady(s).Some?
  {
    if SelectReady(s).None? {
      StallMeansInFlight(s);
    }
  }

  lemma EagerCallServesAll(env: Env, s: Sched, d: Device, e: Engine)
    requires Eager(env) && Sound(s, d) && Owner(e, s).Some?
    ensures EventOf(e, CallEvents(env, d)).Some?
  {
    if EventOf(e, CallEvents(env, d)).None? {
      UnobservedIsBusy(env, s, d, e);
    }
  }

  /** On such hardware no call ever stalls: a complete run may well count no stall at all. */
  lemma {:induction false} EagerNeverStalls(env: Env, sys: System, n: nat)
    requires Eager(env) && Sound(sys.sched, sys.device)
    ensures Run(env, sys, Only(n)).sched.stalls == sys.sched.stalls
    decreases n
  {
    if n != 0 {
      EagerCall(env, sys.sched, sys.device);
      CallIsSafe(env, sys.sched, sys.device);
      OneCallLess(env, sys, n);
      EagerNeverStalls(env, RunOnce(env, sys).system, n - 1);
    }
  }

  lemma EagerCall(env: Env, s: Sched, d: Device)
    requires Eager(env) && Sound(s, d)
    ensures RunOnce(env, System(s, d)).system.sched.stalls == s.stalls
  {
    RunOnceExact(env, s, d);
    var ev := CallEvents(env, d);
    if s.dmaOwner.Some? {
      EagerCallServesAll(env, s, d, DmaEngine);
    }
    if s.accelOwner.Some? {
      EagerCallServesAll(env, s, d, AcceleratorEngine);
    }
    ServedOwners(s, ev);
    ServedKeepsStructure(s, ev);
    StallExactly(s, ev);
    if !AllTerminal(Served(s, ev)) {
      FreeResourcesSelect(Served(s, ev));
    }
  }
}

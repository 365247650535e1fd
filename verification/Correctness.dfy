/** Total correctness of the firmware: on idle, fair and fault-free hardware, well-placed isolated
    workloads are all executed, within a bounded number of calls, as the reference model executes them. */
module Correctness {
  import opened Words
  import opened Soc
  import opened DeviceModel
  import opened Tasks
  import opened Layout
  import opened SchedulerSpec
  import opened SchedulerSteps
  import opened Protocol
  import opened Interference
  import opened Accounting
  import opened Termination
  import opened Runs
  import opened Ledger
  import opened Liveness
  import opened MemoryModel
  import opened Refinement
  import opened Pipeline
  import opened AtomicExecution
  import opened Serializability
  import opened EndToEnd
  import opened RequestMeaning
  import opened Recording
  import opened Priority
  import opened Urgency
  import opened Observations

  /** The environment reports no fault of its own; operations that break the address rules still fault. */
  ghost predicate FaultFree(env: Env) {
    forall t: nat :: !env(t).dma.Fault? && !env(t).accelerator.Fault?
  }

  predicate WellPlacedRange(address: int, n: nat) {
    address % DATA_BYTES == 0 && InDram(address, n)
  }

  /** The external ranges of the workload obey the address rules of the DMA engine. */
  predicate WellPlaced(w: Workload) {
    if w.kind.DmaCopy? then DmaLegal(DmaRequest(w.source0, w.destination, w.length))
    else
      && WellPlacedRange(w.source0, LeftBytes(w))
      && (HasSource1(w) ==> WellPlacedRange(w.source1, RightBytes(w)))
      && WellPlacedRange(w.destination, ResultBytes(w))
  }

  predicate AllWellPlaced(ws: seq<Workload>) {
    forall i :: 0 <= i < |ws| ==> WellPlaced(ws[i])
  }

  /** A transfer between a well-placed range and a slot buffer is legal, either way. */
  lemma StagingIsLegal(external: U32, id: U32, offset: nat, n: U32)
    requires WellPlacedRange(external, n) && id < TASK_SLOT_COUNT
    requires n <= 512 && offset % DATA_BYTES == 0 && offset <= 2048
    ensures var buffer := SlotBase(id) + offset;
      && buffer < TWO32
      && DmaLegal(DmaRequest(external, buffer, n)) && DmaLegal(DmaRequest(buffer, external, n))
  {
    SlotAddresses(id);
  }

  lemma StagedTransferIsLegal(t: Task, q: DmaRequest, external: U32, offset: nat)
    requires WellPlacedRange(external, q.length) && t.id < TASK_SLOT_COUNT && q.length <= 512
    requires offset % DATA_BYTES == 0 && offset <= 2048 && SlotBase(t.id) + offset < TWO32
    requires q == DmaRequest(external, SlotBase(t.id) + offset, q.length)
          || q == DmaRequest(SlotBase(t.id) + offset, external, q.length)
    ensures DmaLegal(q)
  {
    StagingIsLegal(external, t.id, offset, q.length);
  }

  lemma LoadOrStoreIsLegal(t: Task, q: DmaRequest)
    requires Accepted(t.workload) && WellPlaced(t.workload) && !t.workload.kind.DmaCopy? && t.id < TASK_SLOT_COUNT
    requires PhaseFits(t.workload, t.phase) && IsDmaPhase(t.phase) && StageTransfer(t) == Success(q)
    ensures DmaLegal(q)
  {
    var w := t.workload;
    SpanSizes(w);
    StagedRequest(t, q);
    if t.phase.LoadSource0? {
      StagedTransferIsLegal(t, q, w.source0, SOURCE0_OFFSET);
    } else if t.phase.LoadSource1? {
      StagedTransferIsLegal(t, q, w.source1, SOURCE1_OFFSET);
    } else {
      StagedTransferIsLegal(t, q, w.destination, DESTINATION_OFFSET);
    }
  }

  /** The staged transfers in terms of the external ranges and the slot. */
  lemma StagedRequest(t: Task, q: DmaRequest)
    requires Accepted(t.workload) && !t.workload.kind.DmaCopy? && t.id < TASK_SLOT_COUNT
    requires StageTransfer(t) == Success(q)
    ensures var w := t.workload; var slot := SlotBase(t.id);
      && 0 <= slot && slot + DESTINATION_OFFSET < TWO32
      && (t.phase.LoadSource0? ==> q == DmaRequest(w.source0, slot, LeftBytes(w)))
      && (t.phase.LoadSource1? ==> q == DmaRequest(w.source1, slot + SOURCE1_OFFSET, RightBytes(w)))
      && (t.phase.StoreOutput? ==> q == DmaRequest(slot + DESTINATION_OFFSET, w.destination, ResultBytes(w)))
  {
    AcceptedByteCounts(t.workload);
    SlotAddresses(t.id);
  }

  /** Every transfer of a well-placed task passes the address rules. */
  lemma TransferIsLegal(t: Task, q: DmaRequest)
    requires Accepted(t.workload) && WellPlaced(t.workload) && t.id < TASK_SLOT_COUNT
    requires PhaseFits(t.workload, t.phase) && IsDmaPhase(t.phase) && StageTransfer(t) == Success(q)
    ensures DmaLegal(q)
  {
    if !t.workload.kind.DmaCopy? {
      LoadOrStoreIsLegal(t, q);
    }
  }

  // ---- Nothing faults ----

  lemma DmaCompletionIsClean(ws: seq<Workload>, s: Sched, d: Device, v: Verdict)
    requires Sound(s, d) && Fits(s, ws) && AllWellPlaced(ws) && !v.Fault?
    ensures Faults(TickDma(d, v).retired) == Faults(d.retired)
  {
    if DmaBusy(d) && !v.Waiting? {
      DmaRunning(s, d);
      assert WellPlaced(ws[s.dmaOwner.value]);
      TransferIsLegal(s.tasks[s.dmaOwner.value], d.dma);
      FaultsAppend(d.retired, DmaDone(d.dma));
    }
  }

  lemma CommandCompletionIsClean(s: Sched, d: Device, v: Verdict)
    requires Sound(s, d) && !v.Fault?
    ensures Faults(TickAccelerator(d, v).retired) == Faults(d.retired)
  {
    if CommandBusy(d) && !v.Waiting? {
      CommandRunning(s, d);
      AcceptedCommandIsLegal(s.tasks[s.accelOwner.value]);
      FaultsAppend(d.retired, CommandDone(d.command));
    }
  }

  /** As long as the tasks are the first of `ws`, the hardware has reported so many faults. */
  predicate Clean(ws: seq<Workload>, faults: nat, s: Sched, d: Device) {
    Fits(s, ws) ==> Faults(d.retired) == faults
  }

  lemma TickIsClean(env: Env, ws: seq<Workload>, faults: nat, s: Sched, d: Device)
    requires FaultFree(env) && AllWellPlaced(ws) && Sound(s, d) && Clean(ws, faults, s, d)
    ensures Clean(ws, faults, s, Tick(env, d))
  {
    if Fits(s, ws) {
      TickParts(env, s, d);
      var step := env(d.time);
      DmaCompletionIsClean(ws, s, d, step.dma);
      CommandCompletionIsClean(s, TickDma(d, step.dma), step.accelerator);
    }
  }

  lemma MoveIsClean(env: Env, ws: seq<Workload>, faults: nat, m: Move, s: Sched, d: Device, s': Sched, d': Device)
    requires FaultFree(env) && AllWellPlaced(ws)
    requires Sound(s, d) && Moves(env, m, s, d, s', d') && Clean(ws, faults, s, d)
    ensures Clean(ws, faults, s', d')
  {
    if m.HardwareTicks? {
      TickIsClean(env, ws, faults, s, d);
    } else {
      forall j: nat
        ensures d'.retired == d.retired && |s'.tasks| == |s.tasks|
        ensures j < |s.tasks| ==> s'.tasks[j].workload == s.tasks[j].workload
      {
        QuietMove(env, m, s, d, s', d', j);
      }
      assert Fits(s', ws) ==> Fits(s, ws);
    }
  }

  lemma SubmissionIsClean(ws: seq<Workload>, faults: nat, s: Sched, d: Device, r: Request)
    requires Clean(ws, faults, s, d)
    ensures Clean(ws, faults, Submit(s, r).0, d)
  {
    var s' := Submit(s, r).0;
    assert forall i :: 0 <= i < |s.tasks| ==> s'.tasks[i] == s.tasks[i];
    assert Fits(s', ws) ==> Fits(s, ws);
  }

  function Cleanly(ws: seq<Workload>, faults: nat): Property {
    (s, d) => Clean(ws, faults, s, d)
  }

  lemma CleanIsStable(env: Env, ws: seq<Workload>, faults: nat)
    requires FaultFree(env) && AllWellPlaced(ws)
    ensures Stable(env, Cleanly(ws, faults)) && SurvivesSubmission(Cleanly(ws, faults))
  {
    var P := Cleanly(ws, faults);
    forall m, s, d, s', d' | Sound(s, d) && Moves(env, m, s, d, s', d') && P(s, d)
      ensures P(s', d')
    {
      MoveIsClean(env, ws, faults, m, s, d, s', d');
    }
    forall s, d, r | Sound(s, d) && P(s, d)
      ensures P(Submit(s, r).0, d)
    {
      SubmissionIsClean(ws, faults, s, d, r);
    }
  }

  /** On hardware that reports no fault of its own, well-placed workloads never fault: no operation the
      scheduler starts breaks an address or dimension rule, in any run from boot. */
  lemma RunsAreClean(env: Env, d: Device, interval: U32, activities: seq<Activity>)
    requires Idle(d) && FaultFree(env)
    requires AllWellPlaced(WorkloadsOf(Run(env, Started(env, d, interval), activities).sched.tasks))
    ensures Faults(Run(env, Started(env, d, interval), activities).device.retired) == Faults(d.retired)
  {
    BootLinks(env, d, interval);
    var start := Started(env, d, interval);
    var ws := WorkloadsOf(Run(env, start, activities).sched.tasks);
    CleanIsStable(env, ws, Faults(d.retired));
    assert Cleanly(ws, Faults(d.retired))(start.sched, start.device);
    RunSurvives(Cleanly(ws, Faults(d.retired)), env, start, activities);
  }

  lemma {:induction false} NoFailures(tasks: seq<Task>, i: nat)
    requires Failures(tasks) == 0 && i < |tasks|
    ensures !tasks[i].state.Error?
    decreases |tasks|
  {
    if i < |tasks| - 1 {
      NoFailures(tasks[..|tasks| - 1], i);
    }
  }

  /** So no task of such a run is ever in ERROR. */
  lemma NobodyFails(env: Env, d: Device, interval: U32, activities: seq<Activity>, i: nat)
    requires Idle(d) && FaultFree(env)
    requires var tasks := Run(env, Started(env, d, interval), activities).sched.tasks;
      AllWellPlaced(WorkloadsOf(tasks)) && i < |tasks|
    ensures !Run(env, Started(env, d, interval), activities).sched.tasks[i].state.Error?
  {
    RunsAreClean(env, d, interval, activities);
    OperationsAreConserved(env, d, interval, activities);
    NoFailures(Run(env, Started(env, d, interval), activities).sched.tasks, i);
  }

  // ---- Calls after the activities ----

  /** The calls after the activities leave the workloads alone. */
  lemma LaterCalls(env: Env, d: Device, interval: U32, activities: seq<Activity>, n: nat)
    requires Idle(d)
    ensures var mid := Run(env, Started(env, d, interval), activities);
      var end := Run(env, Started(env, d, interval), activities + Only(n));
      && Sound(mid.sched, mid.device) && Sound(end.sched, end.device)
      && end == Run(env, mid, Only(n))
      && WorkloadsOf(end.sched.tasks) == WorkloadsOf(mid.sched.tasks)
  {
    BootLinks(env, d, interval);
    var start := Started(env, d, interval);
    var mid := Run(env, start, activities);
    RunsAreExecutions(env, start, activities);
    RunsAreExecutions(env, start, activities + Only(n));
    RunInParts(env, start, activities, Only(n));
    CallsKeepIdentities(env, mid, n);
    SameWorkloads(mid.sched.tasks, Run(env, mid, Only(n)).sched.tasks);
  }

  /** On fair, fault-free hardware every well-placed task ends up DONE, whatever submissions and calls came
      before, and the completion order lists them all. */
  lemma EverythingIsDone(env: Env, d: Device, interval: U32, activities: seq<Activity>, bound: nat, n: nat)
    requires Idle(d) && Fair(env, bound) && bound >= 1 && FaultFree(env)
    requires var tasks := Run(env, Started(env, d, interval), activities).sched.tasks;
      AllWellPlaced(WorkloadsOf(tasks)) && n >= 1 + bound * TotalStages(tasks)
    ensures var s := Run(env, Started(env, d, interval), activities + Only(n)).sched;
      && (forall i :: 0 <= i < |s.tasks| ==> s.tasks[i].state.Done?)
      && |s.completionOrder| == |s.tasks| && |s.dispatchOrder| == TotalStages(s.tasks)
  {
    var all := activities + Only(n);
    var s := Run(env, Started(env, d, interval), all).sched;
    EverythingTerminates(env, d, interval, activities, bound, n);
    LaterCalls(env, d, interval, activities, n);
    forall i | 0 <= i < |s.tasks|
      ensures s.tasks[i].state.Done?
    {
      NobodyFails(env, d, interval, all, i);
    }
    FromBoot(env, d, interval, all);
    CompletionCount(s);
    AllDoneCount(s.tasks, |s.tasks|);
    DispatchTotal(s);
  }

  /** When all tasks are DONE, every operation of every task has been dispatched exactly once. */
  lemma DispatchTotal(s: Sched)
    requires Structure(s) && Accounted(s) && forall i :: 0 <= i < |s.tasks| ==> s.tasks[i].state.Done?
    ensures |s.dispatchOrder| == TotalStages(s.tasks)
  {
    DispatchBound(s);
    CountBelowAll(s.dispatchOrder, |s.tasks|);
    CountsStages(s, multiset(s.dispatchOrder), |s.tasks|);
    assert s.tasks[..|s.tasks|] == s.tasks;
  }

  lemma {:induction false} CountsStages(s: Sched, m: multiset<nat>, n: nat)
    requires n <= |s.tasks| && forall i :: 0 <= i < n ==> m[i] == StageCount(s.tasks[i].workload)
    ensures CountBelow(m, n) == TotalStages(s.tasks[..n])
  {
    if n != 0 {
      CountsStages(s, m, n - 1);
      assert s.tasks[..n][..n - 1] == s.tasks[..n - 1];
    }
  }

  // ---- Total correctness ----

  /** The whole firmware: boot on idle hardware (whatever interrupt and status bits are left over), submit
      well-placed requests and call the scheduler, in any order, each request clear of the tasks that are
      unfinished when it is submitted. If the environment is fault-free and never makes an engine wait
      `bound` register accesses in a row, then 1 + bound * (total stages) further calls leave every task
      DONE and listed in the completion order, and every byte outside the scratchpad is what executing
      the workloads one after the other by the reference model makes it. */
  lemma FirmwareIsCorrect(env: Env, d: Device, interval: U32, activities: seq<Activity>, bound: nat, n: nat,
                          base: Memory, a: nat)
    requires Idle(d) && Fair(env, bound) && bound >= 1 && FaultFree(env)
    requires Careful(env, EVERYTHING, Started(env, d, interval), activities)
    requires var tasks := Run(env, Started(env, d, interval), activities).sched.tasks;
      AllWellPlaced(WorkloadsOf(tasks)) && n >= 1 + bound * TotalStages(tasks)
    requires !Inhabits(a, SCRATCHPAD)
    ensures var ws := WorkloadsOf(Run(env, Started(env, d, interval), activities).sched.tasks);
      var end := Run(env, Started(env, d, interval), activities + Only(n));
      && (forall i :: 0 <= i < |end.sched.tasks| ==> end.sched.tasks[i].state.Done?)
      && |end.sched.completionOrder| == |end.sched.tasks| == |ws|
      && Replay(base, end.device.events)(a) == Atomically(ws, Everyone(|ws|), Replay(base, d.events))(a)
  {
    LaterCalls(env, d, interval, activities, n);
    EverythingIsDone(env, d, interval, activities, bound, n);
    AllFinish(Run(env, Started(env, d, interval), activities + Only(n)).sched.tasks, a);
    CarefulCalls(env, EVERYTHING, Started(env, d, interval), activities, n);
    RunsRefineAtomicExecution(env, d, interval, activities + Only(n), base, a);
  }

  // ---- A task of highest priority ----

  lemma LeftInStages(s: Sched, h: nat, bound: nat)
    requires Structure(s) && h < |s.tasks| && !Terminal(s.tasks[h])
    ensures 2 * bound * Left(s.tasks[h]) + (if s.tasks[h].state.Ready? then 0 else bound)
         <= 2 * bound * StageCount(s.tasks[h].workload)
  {
    assert TaskOk(s, h);
    var left, stages := Left(s.tasks[h]), StageCount(s.tasks[h].workload);
    MulMonotone(2 * bound, left, stages);
    if !s.tasks[h].state.Ready? {
      MulMonotone(2 * bound, left + 1, stages);
      assert 2 * bound * (left + 1) == 2 * bound * left + 2 * bound;
    }
  }

  /** Priority from boot: whatever has been submitted and called before, and whatever of lower priority is
      submitted afterwards, a task of strictly highest priority is terminal after 2 * bound more calls per
      stage, however many others are queued. If the workloads are well placed and the hardware is
      fault-free, it is DONE. */
  lemma UrgentTaskIsServed(env: Env, d: Device, interval: U32, before: seq<Activity>, after: seq<Activity>, bound: nat,
                           h: nat)
    requires Idle(d) && Fair(env, bound) && bound >= 1
    requires var s := Run(env, Started(env, d, interval), before).sched;
      && Top(s, h) && SubmitsBelow(after, s.tasks[h].priority)
      && CallCount(after) >= 2 * bound * StageCount(s.tasks[h].workload)
    ensures var tasks := Run(env, Started(env, d, interval), before + after).sched.tasks;
      && h < |tasks| && Terminal(tasks[h])
      && (FaultFree(env) && AllWellPlaced(WorkloadsOf(tasks)) ==> tasks[h].state.Done?)
  {
    BootLinks(env, d, interval);
    var start := Started(env, d, interval);
    var mid := Run(env, start, before);
    RunsAreExecutions(env, start, before);
    RunInParts(env, start, before, after);
    LeftInStages(mid.sched, h, bound);
    TopTaskFinishes(env, bound, mid.sched, mid.device, h, after);
    var tasks := Run(env, start, before + after).sched.tasks;
    if FaultFree(env) && AllWellPlaced(WorkloadsOf(tasks)) {
      NobodyFails(env, d, interval, before + after, h);
    }
  }

  // ---- In terms of the submission interface ----

  /** The requests fit the task table and each is accepted by its entry point. */
  predicate Acceptable(requests: seq<Request>) {
    |requests| <= TASK_SLOT_COUNT && AllAccepted(requests)
  }

  function WorkloadsFor(requests: seq<Request>): (ws: seq<Workload>)
    requires AllAccepted(requests)
    ensures |ws| == |requests|
  {
    seq(|requests|, i requires 0 <= i < |requests| => WorkloadOf(requests[i]).value)
  }

  /** The tasks of a run from boot have the workloads and priorities of the requests submitted. */
  lemma TasksAreRequests(env: Env, d: Device, interval: U32, activities: seq<Activity>)
    requires Idle(d) && Acceptable(RequestsOf(activities))
    ensures var requests := RequestsOf(activities);
      var tasks := Run(env, Started(env, d, interval), activities).sched.tasks;
      && WorkloadsOf(tasks) == WorkloadsFor(requests) && |tasks| == |requests|
      && forall i :: 0 <= i < |requests| ==> tasks[i].priority == requests[i].priority
  {
    BootLinks(env, d, interval);
    RunRecords(env, Started(env, d, interval), activities);
    var ids := IdentitiesOf(RequestsOf(activities));
    assert Identities(EMPTY.tasks) + ids == ids;
    RecordedTasks(Run(env, Started(env, d, interval), activities).sched.tasks, RequestsOf(activities));
  }

  lemma RecordedTasks(tasks: seq<Task>, requests: seq<Request>)
    requires AllAccepted(requests) && Identities(tasks) == IdentitiesOf(requests)
    ensures WorkloadsOf(tasks) == WorkloadsFor(requests) && |tasks| == |requests|
    ensures forall i :: 0 <= i < |requests| ==> tasks[i].priority == requests[i].priority
  {
    forall i | 0 <= i < |requests|
      ensures |tasks| == |requests|
      ensures tasks[i].workload == WorkloadOf(requests[i]).value && tasks[i].priority == requests[i].priority
    {
      assert Identities(tasks)[i] == IdentitiesOf(requests)[i];
    }
  }

  lemma {:induction false} StagesAtMost(tasks: seq<Task>)
    ensures TotalStages(tasks) <= 4 * |tasks|
  {
    if |tasks| != 0 {
      StagesAtMost(tasks[..|tasks| - 1]);
    }
  }

  lemma EnoughCalls(tasks: seq<Task>, bound: nat, n: nat)
    requires n >= 1 + bound * (4 * |tasks|)
    ensures n >= 1 + bound * TotalStages(tasks)
  {
    StagesAtMost(tasks);
    MulMonotone(bound, TotalStages(tasks), 4 * |tasks|);
  }

  /** The destination of the request holds what it asks for. */
  predicate Delivered(r: Request, m0: Memory, m: Memory)
    requires WorkloadOf(r).Success?
  {
    ReadBytes(m, r.destination, |Expected(r, m0)|) == Expected(r, m0)
  }

  lemma DeliveredByReference(requests: seq<Request>, i: nat, m0: Memory, m: Memory)
    requires AllAccepted(requests) && i < |requests| && Accepted(WorkloadsFor(requests)[i])
    requires Written(WorkloadsFor(requests)[i], m0, m)
    ensures Delivered(requests[i], m0, m) && Fulfilled(requests[i], m0, m)
  {
    RequestMeansReference(requests[i], m0);
    ExpectedFulfils(requests[i], m0, m);
  }

  /** Every acceptable request is served as its arguments ask, however submissions and calls alternate: after
      1 + 4 * bound * (requests) further calls each task is DONE and its destination holds what the
      request asks for, computed from the bytes its sources held at boot (as bytes of the reference models,
      and in plain integers), and nothing else outside the scratchpad has changed. */
  lemma RequestsAreServed(env: Env, d: Device, interval: U32, activities: seq<Activity>, bound: nat, n: nat,
                          base: Memory)
    requires Idle(d) && Fair(env, bound) && bound >= 1 && FaultFree(env)
    requires var requests := RequestsOf(activities);
      && Acceptable(requests) && AllWellPlaced(WorkloadsFor(requests)) && Isolated(WorkloadsFor(requests))
      && n >= 1 + bound * (4 * |requests|)
    ensures var requests := RequestsOf(activities);
      var end := Run(env, Started(env, d, interval), activities + Only(n));
      var m0, m := Replay(base, d.events), Replay(base, end.device.events);
      && |end.sched.tasks| == |requests|
      && (forall i :: 0 <= i < |requests| ==>
            end.sched.tasks[i].state.Done? && Delivered(requests[i], m0, m) && Fulfilled(requests[i], m0, m))
      && ForeignKept(WorkloadsFor(requests), m0, m)
  {
    var requests := RequestsOf(activities);
    TasksAreRequests(env, d, interval, activities);
    EnoughCalls(Run(env, Started(env, d, interval), activities).sched.tasks, bound, n);
    LaterCalls(env, d, interval, activities, n);
    EverythingIsDone(env, d, interval, activities, bound, n);
    PipelinedRefinement(env, d, interval, activities + Only(n), base);
    var end := Run(env, Started(env, d, interval), activities + Only(n));
    var m0, m := Replay(base, d.events), Replay(base, end.device.events);
    forall i | 0 <= i < |requests|
      ensures Delivered(requests[i], m0, m) && Fulfilled(requests[i], m0, m)
    {
      assert Written(WorkloadsFor(requests)[i], m0, m);
      DeliveredByReference(requests, i, m0, m);
    }
  }

  /** Serving one request at a time: its destination gets what it asks for. */
  function RequestStep(requests: seq<Request>): (nat, Memory) -> Memory
    requires AllAccepted(requests)
  {
    (i: nat, m: Memory) =>
      if i < |requests| then WriteBytes(m, requests[i].destination, Expected(requests[i], m)) else m
  }

  /** It fulfils that request and touches nothing but its destination. */
  lemma StepFulfils(requests: seq<Request>, i: nat, m: Memory)
    requires AllAccepted(requests) && i < |requests|
    ensures var m' := RequestStep(requests)(i, m);
      && Fulfilled(requests[i], m, m')
      && AgreeOutside(m, m', Span(requests[i].destination, |Expected(requests[i], m)|))
  {
    ReadWritten(m, requests[i].destination, Expected(requests[i], m));
    WriteAgrees(m, requests[i].destination, Expected(requests[i], m));
    ExpectedFulfils(requests[i], m, RequestStep(requests)(i, m));
  }

  /** Serving all requests, one after the other. */
  function InSequence(requests: seq<Request>, m: Memory): Memory
    requires AllAccepted(requests)
  {
    Iterate(RequestStep(requests), |requests|, m)
  }

  lemma SequenceIsAtomic(requests: seq<Request>, m: Memory)
    requires AllAccepted(requests)
    ensures Atomically(WorkloadsFor(requests), Everyone(|requests|), m) == InSequence(requests, m)
  {
    var ws := WorkloadsFor(requests);
    var f, g := AtomicStep(ws, Everyone(|requests|)), RequestStep(requests);
    forall i: nat, x: Memory | i < |requests|
      ensures f(i, x) == g(i, x)
    {
      WorkloadOfIsAccepted(requests[i]);
      RequestMeansReference(requests[i], x);
    }
    IterateSame(f, g, |requests|, m);
  }

  /** Requests that depend on each other: if each request is clear of the tasks unfinished when it is submitted,
      so that it may read and overwrite what DONE ones have written, then after 1 + 4 * bound * (requests)
      further calls memory outside the scratchpad is what serving the requests one after the other, in
      submission order, makes it. */
  lemma RequestsRunInSequence(env: Env, d: Device, interval: U32, activities: seq<Activity>, bound: nat, n: nat,
                              base: Memory, a: nat)
    requires Idle(d) && Fair(env, bound) && bound >= 1 && FaultFree(env)
    requires Careful(env, EVERYTHING, Started(env, d, interval), activities)
    requires var requests := RequestsOf(activities);
      && Acceptable(requests) && AllWellPlaced(WorkloadsFor(requests)) && n >= 1 + bound * (4 * |requests|)
    requires !Inhabits(a, SCRATCHPAD)
    ensures var end := Run(env, Started(env, d, interval), activities + Only(n));
      Replay(base, end.device.events)(a) == InSequence(RequestsOf(activities), Replay(base, d.events))(a)
  {
    TasksAreRequests(env, d, interval, activities);
    EnoughCalls(Run(env, Started(env, d, interval), activities).sched.tasks, bound, n);
    FirmwareIsCorrect(env, d, interval, activities, bound, n, base, a);
    SequenceIsAtomic(RequestsOf(activities), Replay(base, d.events));
  }

  // ---- What a run of a submitted workload shows ----

  /** The operations of all the workloads. */
  function StagesOf(ws: seq<Workload>): nat {
    if |ws| == 0 then 0 else StagesOf(ws[..|ws| - 1]) + StageCount(ws[|ws| - 1])
  }

  lemma {:induction false} StagesByWorkload(tasks: seq<Task>)
    ensures TotalStages(tasks) == StagesOf(WorkloadsOf(tasks))
  {
    if |tasks| != 0 {
      StagesByWorkload(tasks[..|tasks| - 1]);
      assert WorkloadsOf(tasks)[..|tasks| - 1] == WorkloadsOf(tasks[..|tasks| - 1]);
    }
  }

  /** Request `i` goes before request `j`: higher priority, or equal priority and submitted earlier. */
  predicate Precedes(requests: seq<Request>, i: nat, j: nat)
    requires i < |requests| && j < |requests|
  {
    requests[i].priority > requests[j].priority || (requests[i].priority == requests[j].priority && i < j)
  }

  lemma SubmittedState(env: Env, d: Device, interval: U32, requests: seq<Request>)
    requires Idle(d) && Acceptable(requests)
    ensures var mid := Run(env, Started(env, d, interval), Submissions(requests));
      && Sound(mid.sched, mid.device) && Fresh(mid.sched)
      && mid.sched.dispatchOrder == [] && mid.sched.stalls == 0
      && |mid.sched.tasks| == |requests| && WorkloadsOf(mid.sched.tasks) == WorkloadsFor(requests)
      && forall i :: 0 <= i < |requests| ==> mid.sched.tasks[i].priority == requests[i].priority
  {
    BootLinks(env, d, interval);
    SubmissionsAreFresh(env, Started(env, d, interval), requests);
    SubmissionsRequest(requests);
    TasksAreRequests(env, d, interval, Submissions(requests));
  }

  /** The first operation dispatched belongs to the request that goes before all others. */
  lemma FirstIsBest(env: Env, d: Device, interval: U32, requests: seq<Request>, n: nat)
    requires Idle(d) && Acceptable(requests) && |requests| != 0 && n != 0
    ensures var order := Run(env, Started(env, d, interval), Submissions(requests) + Only(n)).sched.dispatchOrder;
      && |order| != 0 && order[0] < |requests|
      && forall j :: 0 <= j < |requests| && j != order[0] ==> Precedes(requests, order[0], j)
  {
    SubmittedState(env, d, interval, requests);
    var mid := Run(env, Started(env, d, interval), Submissions(requests));
    LaterCalls(env, d, interval, Submissions(requests), n);
    RunOfCalls(env, mid, n);
    FirstDispatch(mid.sched, EventRun(env, mid, n));
    var first := Exec(mid.sched, Calls(EventRun(env, mid, n))).dispatchOrder[0];
    forall j | 0 <= j < |requests| && j != first
      ensures Precedes(requests, first, j)
    {
      assert Outranks(mid.sched.tasks, first, j);
    }
  }

  lemma Unfinished(s: Sched)
    requires Fresh(s) && |s.tasks| != 0
    ensures !AllTerminal(s)
  {
    assert !Terminal(s.tasks[0]);
  }

  lemma EnoughForWork(env: Env, mid: System, n: nat, work: nat)
    requires Sound(mid.sched, mid.device) && !AllTerminal(mid.sched)
    requires var end := Run(env, mid, Only(n)).sched;
      AllTerminal(end) && |end.dispatchOrder| == |mid.sched.dispatchOrder| + work
    ensures work + 1 <= n
  {
    RunOfCalls(env, mid, n);
    StallCount(mid.sched, EventRun(env, mid, n));
    StallsOnlyGrow(mid.sched, EventRun(env, mid, n));
  }

  lemma OnlyInParts(n: nat, k: nat)
    requires k <= n
    ensures Only(n) == Only(k) + Only(n - k)
  {
  }

  lemma CallsInParts(env: Env, mid: System, n: nat, k: nat)
    requires Indexed(mid.sched) && k <= n
    ensures Run(env, mid, Only(n)) == Run(env, Run(env, mid, Only(k)), Only(n - k))
  {
    OnlyInParts(n, k);
    RunInParts(env, mid, Only(k), Only(n - k));
  }

  /** The events of a run of calls, as far as its end is concerned. */
  lemma RunHasEvents(env: Env, mid: System, n: nat) returns (evs: seq<Events>)
    requires Sound(mid.sched, mid.device)
    ensures |evs| == n && Run(env, mid, Only(n)).sched == Exec(mid.sched, Calls(evs))
    ensures Sound(Run(env, mid, Only(n)).sched, Run(env, mid, Only(n)).device)
  {
    evs := EventRun(env, mid, n);
    RunOfCalls(env, mid, n);
    RunsAreExecutions(env, mid, Only(n));
  }

  lemma FreshRunStalls(env: Env, mid: System, n: nat, work: nat)
    requires Sound(mid.sched, mid.device) && Fresh(mid.sched) && |mid.sched.tasks| != 0
    requires mid.sched.dispatchOrder == [] && mid.sched.stalls == 0
    requires var end := Run(env, mid, Only(n)).sched; AllTerminal(end) && |end.dispatchOrder| == work
    ensures work + 1 <= n
    ensures Run(env, mid, Only(n)).sched.stalls != 0 <==> !AllTerminal(Run(env, mid, Only(work + 1)).sched)
  {
    Unfinished(mid.sched);
    EnoughForWork(env, mid, n, work);
    CallsInParts(env, mid, n, work + 1);
    var half := Run(env, mid, Only(work + 1));
    var first := RunHasEvents(env, mid, work + 1);
    var rest := RunHasEvents(env, half, n - work - 1);
    StallsIff(mid.sched, first, rest, work);
  }

  lemma DoneWork(env: Env, d: Device, interval: U32, requests: seq<Request>, bound: nat, n: nat)
    requires Idle(d) && Fair(env, bound) && bound >= 1 && FaultFree(env)
    requires Acceptable(requests) && AllWellPlaced(WorkloadsFor(requests)) && n >= 1 + bound * (4 * |requests|)
    ensures var end := Run(env, Started(env, d, interval), Submissions(requests) + Only(n)).sched;
      AllTerminal(end) && |end.dispatchOrder| == StagesOf(WorkloadsFor(requests))
  {
    var activities := Submissions(requests);
    SubmittedState(env, d, interval, requests);
    EnoughCalls(Run(env, Started(env, d, interval), activities).sched.tasks, bound, n);
    LaterCalls(env, d, interval, activities, n);
    EverythingIsDone(env, d, interval, activities, bound, n);
    StagesByWorkload(Run(env, Started(env, d, interval), activities + Only(n)).sched.tasks);
  }

  /** On fault-free hardware a complete run of submitted requests has counted a stall if and only if some
      task was still unfinished after one call more than there are operations. */
  lemma StallsExactly(env: Env, d: Device, interval: U32, requests: seq<Request>, bound: nat, n: nat)
    requires Idle(d) && Fair(env, bound) && bound >= 1 && FaultFree(env)
    requires Acceptable(requests) && |requests| != 0 && AllWellPlaced(WorkloadsFor(requests))
    requires n >= 1 + bound * (4 * |requests|)
    ensures var work := StagesOf(WorkloadsFor(requests)); var start := Started(env, d, interval);
      && work + 1 <= n
      && (Run(env, start, Submissions(requests) + Only(n)).sched.stalls != 0
          <==> !AllTerminal(Run(env, start, Submissions(requests) + Only(work + 1)).sched))
  {
    var work := StagesOf(WorkloadsFor(requests));
    SubmittedState(env, d, interval, requests);
    DoneWork(env, d, interval, requests, bound, n);
    LaterCalls(env, d, interval, Submissions(requests), n);
    FreshRunStalls(env, Run(env, Started(env, d, interval), Submissions(requests)), n, work);
    LaterCalls(env, d, interval, Submissions(requests), work + 1);
  }

  /** The first transfer is seen by the second call: it finishes by the first access of that call, or by the
      second one if the interrupt line is up for another reason. */
  predicate SeenInTime(env: Env, d: Device) {
    !env(d.time).dma.Waiting? || (IrqAsserted(Tick(env, d)) && !env(d.time + 1).dma.Waiting?)
  }

  lemma FirstCallStarts(env: Env, s: Sched, d: Device)
    requires Sound(s, d) && Fresh(s) && |s.tasks| != 0
    ensures var one := RunOnce(env, System(s, d)).system;
      Sound(one.sched, one.device) && AllNeedDma(one.sched) && DmaInFlight(one.device) && one.sched.stalls == s.stalls
  {
    FirstCall(s, CallEvents(env, d));
    RunOnceExact(env, s, d);
  }

  lemma SecondCallStalls(env: Env, s: Sched, d: Device)
    requires Sound(s, d) && AllNeedDma(s) && DmaInFlight(d)
    ensures RunOnce(env, System(s, d)).system.sched.stalls == s.stalls + (if SeenInTime(env, d) then 0 else 1)
  {
    var ev := CallEvents(env, d);
    ObservesExactly(env, s, d);
    StallsAsStepped(env, s, d, ev);
  }

  lemma StallsAsStepped(env: Env, s: Sched, d: Device, ev: Events)
    requires Sound(s, d) && AllNeedDma(s) && ev == CallEvents(env, d)
    ensures RunOnce(env, System(s, d)).system.sched.stalls == s.stalls + (if ev.dma.None? then 1 else 0)
  {
    RunOnceExact(env, s, d);
    SecondCall(s, ev);
  }

  lemma UnseenWhenWaited(env: Env, d: Device)
    requires Waited(env, DmaEngine, d.time, d.time + 2)
    ensures !SeenInTime(env, d)
  {
    assert VerdictOf(DmaEngine, env(d.time)).Waiting? && VerdictOf(DmaEngine, env(d.time + 1)).Waiting?;
  }

  lemma TwoCallsFirst(env: Env, mid: System, n: nat)
    requires Sound(mid.sched, mid.device) && n >= 2
    ensures Run(env, mid, Only(n)) == Run(env, RunOnce(env, RunOnce(env, mid).system).system, Only(n - 2))
  {
    CallIsSafe(env, mid.sched, mid.device);
    OneCallLess(env, mid, n);
    OneCallLess(env, RunOnce(env, mid).system, n - 1);
  }

  lemma StallsStay(env: Env, sys: System, n: nat)
    requires Sound(sys.sched, sys.device)
    ensures sys.sched.stalls <= Run(env, sys, Only(n)).sched.stalls
  {
    var evs := RunHasEvents(env, sys, n);
    StallsOnlyGrow(sys.sched, evs);
  }

  /** The second call of a run stalls if and only if it does not see the end of the first transfer. */
  lemma EarlyStall(env: Env, mid: System)
    requires Sound(mid.sched, mid.device) && Fresh(mid.sched) && |mid.sched.tasks| != 0 && mid.sched.stalls == 0
    ensures var one := RunOnce(env, mid).system;
      Indexed(one.sched) && RunOnce(env, one).system.sched.stalls == if SeenInTime(env, one.device) then 0 else 1
  {
    FirstCallStarts(env, mid.sched, mid.device);
    var one := RunOnce(env, mid).system;
    SecondCallStalls(env, one.sched, one.device);
  }

  /** So an environment that makes the engine wait at the first two accesses of the second call makes it stall. */
  lemma SlowRunStalls(env: Env, mid: System, n: nat)
    requires Sound(mid.sched, mid.device) && Fresh(mid.sched) && |mid.sched.tasks| != 0 && mid.sched.stalls == 0
    requires n >= 2
    requires var t := RunOnce(env, mid).system.device.time; Waited(env, DmaEngine, t, t + 2)
    ensures Run(env, mid, Only(n)).sched.stalls != 0
  {
    var one := RunOnce(env, mid).system;
    CallIsSafe(env, mid.sched, mid.device);
    CallIsSafe(env, one.sched, one.device);
    EarlyStall(env, mid);
    UnseenWhenWaited(env, one.device);
    TwoCallsFirst(env, mid, n);
    StallsStay(env, RunOnce(env, one).system, n - 2);
  }

  /** How the environment decides about a stall, for all workloads. Every pipeline begins with a transfer, so the
      second call stalls if and only if it does not see the end of the first one; and it does not if the
      environment makes the engine wait at the first two accesses of that call. */
  lemma SlowHardwareStalls(env: Env, d: Device, interval: U32, requests: seq<Request>, mid: System, n: nat)
    requires Idle(d) && Acceptable(requests) && |requests| != 0 && n >= 2
    requires mid == Run(env, Started(env, d, interval), Submissions(requests))
    ensures var one := RunOnce(env, mid).system;
      && RunOnce(env, one).system.sched.stalls == (if SeenInTime(env, one.device) then 0 else 1)
      && (Waited(env, DmaEngine, one.device.time, one.device.time + 2) ==> Run(env, mid, Only(n)).sched.stalls != 0)
  {
    SubmittedState(env, d, interval, requests);
    EarlyStall(env, mid);
    var t := RunOnce(env, mid).system.device.time;
    if Waited(env, DmaEngine, t, t + 2) {
      SlowRunStalls(env, mid, n);
    }
  }

  /** Which need not be: on hardware that finishes every operation by the next register access, no run of
      submitted requests counts a stall. */
  lemma EagerHardwareNeverStalls(env: Env, d: Device, interval: U32, requests: seq<Request>, n: nat)
    requires Idle(d) && Acceptable(requests) && Eager(env)
    ensures Run(env, Started(env, d, interval), Submissions(requests) + Only(n)).sched.stalls == 0
    ensures Fair(env, 1) && FaultFree(env)
  {
    SubmittedState(env, d, interval, requests);
    LaterCalls(env, d, interval, Submissions(requests), n);
    EagerNeverStalls(env, Run(env, Started(env, d, interval), Submissions(requests)), n);
    EagerIsFair(env);
  }

  /** DONE tasks carry the time of their completion, later than their stages. */
  lemma DoneTimes(env: Env, d: Device, interval: U32, activities: seq<Activity>, i: nat)
    requires Idle(d)
    requires var tasks := Run(env, Started(env, d, interval), activities).sched.tasks;
      i < |tasks| && tasks[i].state.Done?
    ensures var t := Run(env, Started(env, d, interval), activities).sched.tasks[i];
      t.completedAt >= t.submittedAt + StageCount(t.workload) + 1
  {
    FromBoot(env, d, interval, activities);
    var s := Run(env, Started(env, d, interval), activities).sched;
    assert TaskOnTime(s.tasks[i], s.calls, 0);
  }
}

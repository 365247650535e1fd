/** What whole runs keep: stage accounting, completion order, timing, stall counting. */
module Accounting {
  import opened Words
  import opened DeviceModel
  import opened Tasks
  import opened Layout
  import opened SchedulerSpec
  import opened SchedulerSteps

  // ---- What serving a completion leaves alone ----

  lemma ServeDmaCounts(s: Sched, event: Option<CompletionStatus>)
    requires Indexed(s)
    ensures var s' := ServeDma(s, event);
      s'.dispatchOrder == s.dispatchOrder && s'.stalls == s.stalls && s'.calls == s.calls && |s'.tasks| == |s.tasks|
  {
  }

  lemma ServeAcceleratorCounts(s: Sched, event: Option<CompletionStatus>)
    requires Indexed(s)
    ensures var s' := ServeAccelerator(s, event);
      s'.dispatchOrder == s.dispatchOrder && s'.stalls == s.stalls && s'.calls == s.calls && |s'.tasks| == |s.tasks|
  {
  }

  /** Only the owner of a resource is touched by its completion. */
  lemma ServeDmaFrame(s: Sched, event: Option<CompletionStatus>, i: nat)
    requires Structure(s) && i < |s.tasks| && !s.tasks[i].state.BlockedOnDma?
    ensures i < |ServeDma(s, event).tasks| && ServeDma(s, event).tasks[i] == s.tasks[i]
  {
    assert TaskOk(s, i);
  }

  lemma ServeAcceleratorFrame(s: Sched, event: Option<CompletionStatus>, i: nat)
    requires Structure(s) && i < |s.tasks| && !s.tasks[i].state.BlockedOnAccel?
    ensures i < |ServeAccelerator(s, event).tasks| && ServeAccelerator(s, event).tasks[i] == s.tasks[i]
  {
    assert TaskOk(s, i);
  }

  lemma ProceedFrame(s: Sched, i: nat)
    requires Indexed(s) && i < |s.tasks| && !s.tasks[i].state.Ready?
    ensures i < |Proceed(s).tasks| && Proceed(s).tasks[i] == s.tasks[i]
  {
  }

  // ---- Stage accounting ----

  predicate Blocked(t: Task) {
    t.state.BlockedOnDma? || t.state.BlockedOnAccel?
  }

  /** How many operations of a task have been dispatched. */
  function Dispatched(t: Task): nat {
    StageIndex(t.workload, t.phase) + (if Blocked(t) || t.state.Error? then 1 else 0)
  }

  /** Every task id occurs in the dispatch order exactly once per operation it has dispatched. */
  predicate Accounted(s: Sched) {
    && (forall i :: 0 <= i < |s.tasks| ==> multiset(s.dispatchOrder)[i] == Dispatched(s.tasks[i]))
    && (forall k :: 0 <= k < |s.dispatchOrder| ==> s.dispatchOrder[k] < |s.tasks|)
  }

  lemma ServeDmaKeepsAccounted(s: Sched, event: Option<CompletionStatus>)
    requires Structure(s) && Accounted(s)
    ensures Accounted(ServeDma(s, event))
  {
    if event.Some? && s.dmaOwner.Some? {
      var i := s.dmaOwner.value;
      assert TaskOk(s, i);
      if !s.tasks[i].workload.kind.DmaCopy? {
        AcceptedByteCounts(s.tasks[i].workload);
      }
      var s' := ServeDma(s, event);
      assert Dispatched(s'.tasks[i]) == Dispatched(s.tasks[i]);
    }
  }

  lemma ServeAcceleratorKeepsAccounted(s: Sched, event: Option<CompletionStatus>)
    requires Structure(s) && Accounted(s)
    ensures Accounted(ServeAccelerator(s, event))
  {
    if event.Some? && s.accelOwner.Some? {
      var i := s.accelOwner.value;
      assert TaskOk(s, i);
      var s' := ServeAccelerator(s, event);
      assert Dispatched(s'.tasks[i]) == Dispatched(s.tasks[i]);
    }
  }

  lemma ProceedKeepsAccounted(s: Sched)
    requires Structure(s) && Accounted(s)
    ensures Accounted(Proceed(s))
  {
    match SelectReady(s)
    case None =>
    case Some(i) =>
      LaunchKeepsStructure(s, i);
      LaunchKeepsAccounted(s, i);
  }

  lemma LaunchKeepsAccounted(s: Sched, i: nat)
    requires Structure(s) && Accounted(s)
    requires i < |s.tasks| && s.tasks[i].state.Ready? && !s.tasks[i].phase.Complete?
    ensures Accounted(Launch(s, i))
  {
    var s' := Launch(s, i);
    assert s'.dispatchOrder == s.dispatchOrder + [i];
    assert Dispatched(s'.tasks[i]) == Dispatched(s.tasks[i]) + 1;
    assert forall j :: 0 <= j < |s.tasks| && j != i ==> s'.tasks[j] == s.tasks[j];
  }

  lemma SubmitKeepsAccounted(s: Sched, r: Request)
    requires Structure(s) && Accounted(s)
    ensures Accounted(Submit(s, r).0)
  {
    assert multiset(s.dispatchOrder)[|s.tasks|] == 0;
  }

  lemma StepKeepsAccounted(s: Sched, a: Action)
    requires Structure(s) && Accounted(s)
    ensures Accounted(Step(s, a))
  {
    match a
    case Submission(r) => SubmitKeepsAccounted(s, r);
    case Call(ev) =>
      var s1 := CountCall(s);
      CountersKeepStructure(s, s1);
      ServeDmaKeepsStructure(s1, ev.dma);
      ServeDmaKeepsAccounted(s1, ev.dma);
      var s2 := ServeDma(s1, ev.dma);
      ServeAcceleratorKeepsStructure(s2, ev.accelerator);
      ServeAcceleratorKeepsAccounted(s2, ev.accelerator);
      var s3 := ServeAccelerator(s2, ev.accelerator);
      CountersKeepStructure(s3, ServeTimer(s3, ev.timer));
      ProceedKeepsAccounted(ServeTimer(s3, ev.timer));
  }

  /** Stage accounting in every run: a task's id occurs in the dispatch order once per operation behind
      it, plus one for the operation in flight or the one that failed. */
  lemma {:induction false} StageAccounting(s: Sched, actions: seq<Action>)
    requires Structure(s) && Accounted(s)
    ensures Accounted(Exec(s, actions))
    decreases |actions|
  {
    if |actions| != 0 {
      StepKeepsStructure(s, actions[0]);
      StepKeepsAccounted(s, actions[0]);
      StageAccounting(Step(s, actions[0]), actions[1..]);
    }
  }

  // ---- The size of the dispatch order ----

  /** Occurrences below `n`. */
  function CountBelow(m: multiset<nat>, n: nat): nat {
    if n == 0 then 0 else m[n - 1] + CountBelow(m, n - 1)
  }

  lemma {:induction false} CountBelowAll(order: seq<nat>, n: nat)
    requires forall k :: 0 <= k < |order| ==> order[k] < n
    ensures CountBelow(multiset(order), n) == |order|
    decreases |order|
  {
    if |order| == 0 {
      CountBelowEmpty(n);
    } else {
      var k := |order| - 1;
      assert order == order[..k] + [order[k]];
      CountBelowAll(order[..k], n);
      CountBelowAdd(multiset(order[..k]), order[k], n);
    }
  }

  lemma {:induction false} CountBelowEmpty(n: nat)
    ensures CountBelow(multiset{}, n) == 0
  {
    if n != 0 {
      CountBelowEmpty(n - 1);
    }
  }

  lemma {:induction false} CountBelowAdd(m: multiset<nat>, x: nat, n: nat)
    ensures CountBelow(m + multiset{x}, n) == CountBelow(m, n) + (if x < n then 1 else 0)
  {
    if n != 0 {
      CountBelowAdd(m, x, n - 1);
    }
  }

  lemma {:induction false} CountBelowAtMost(m: multiset<nat>, n: nat, bound: nat)
    requires forall i :: 0 <= i < n ==> m[i] <= bound
    ensures CountBelow(m, n) <= bound * n
  {
    if n != 0 {
      CountBelowAtMost(m, n - 1, bound);
      assert bound * n == bound * (n - 1) + bound;
    }
  }

  /** Finished tasks have dispatched 1 (copy), 3 (ReLU, reduction) or 4 (add, clamp, GEMM) operations,
      and no dispatch order is longer than 64. */
  lemma DispatchBound(s: Sched)
    requires Structure(s) && Accounted(s)
    ensures forall i :: 0 <= i < |s.tasks| && s.tasks[i].state.Done? ==>
      multiset(s.dispatchOrder)[i] == StageCount(s.tasks[i].workload)
    ensures |s.dispatchOrder| <= 64
  {
    forall i | 0 <= i < |s.tasks|
      ensures multiset(s.dispatchOrder)[i] <= 4
      ensures s.tasks[i].state.Done? ==> multiset(s.dispatchOrder)[i] == StageCount(s.tasks[i].workload)
    {
      assert TaskOk(s, i);
    }
    CountBelowAll(s.dispatchOrder, |s.tasks|);
    CountBelowAtMost(multiset(s.dispatchOrder), |s.tasks|, 4);
  }

  // ---- Completion order ----

  /** The completion order lists exactly the DONE tasks, in strictly increasing completion time (so each
      once), none later than `limit`. */
  predicate CompletionsBy(s: Sched, limit: int) {
    && (forall k :: 0 <= k < |s.completionOrder| ==>
          s.completionOrder[k] < |s.tasks| && s.tasks[s.completionOrder[k]].state.Done?
          && s.tasks[s.completionOrder[k]].completedAt <= limit)
    && (forall i :: 0 <= i < |s.tasks| && s.tasks[i].state.Done? ==> i in s.completionOrder)
    && (forall j, k :: 0 <= j < k < |s.completionOrder| ==>
          s.tasks[s.completionOrder[j]].completedAt < s.tasks[s.completionOrder[k]].completedAt)
  }

  /** Between calls completions are no later than the last call. */
  predicate Completed(s: Sched) {
    CompletionsBy(s, s.calls)
  }

  lemma CompletionsUnmoved(s: Sched, s': Sched, limit: int, limit': int)
    requires CompletionsBy(s, limit) && limit <= limit'
    requires |s'.tasks| == |s.tasks| && s'.completionOrder == s.completionOrder
    requires forall i :: 0 <= i < |s.tasks| ==>
      (s'.tasks[i].state.Done? <==> s.tasks[i].state.Done?)
      && (s.tasks[i].state.Done? ==> s'.tasks[i].completedAt == s.tasks[i].completedAt)
    ensures CompletionsBy(s', limit')
  {
  }

  lemma CompletionAppended(s: Sched, i: nat)
    requires Structure(s) && i < |s.tasks| && !s.tasks[i].state.Done?
    requires CompletionsBy(s, s.calls - 1)
    ensures Completed(FinishTask(s, i))
  {
    var s' := FinishTask(s, i);
    assert s'.completionOrder == s.completionOrder + [i];
    assert s'.completionOrder[|s.completionOrder|] == i;
    forall j | 0 <= j < |s'.tasks| && s'.tasks[j].state.Done?
      ensures j in s'.completionOrder
    {
      if j != i {
        assert j in s.completionOrder;
      }
    }
  }

  lemma ServeDmaKeepsCompleted(s: Sched, event: Option<CompletionStatus>)
    requires Structure(s) && CompletionsBy(s, s.calls - 1)
    ensures Completed(ServeDma(s, event))
  {
    if event.Some? && s.dmaOwner.Some? {
      DmaCompletionKeepsCompleted(s, s.dmaOwner.value, event.value);
    } else {
      CompletionsUnmoved(s, s, s.calls - 1, s.calls);
    }
  }

  lemma DmaCompletionKeepsCompleted(s: Sched, i: nat, status: CompletionStatus)
    requires Structure(s) && CompletionsBy(s, s.calls - 1) && s.dmaOwner == Some(i)
    ensures Completed(CompleteDmaTask(s, i, status).0)
  {
    assert TaskOk(s, i);
    var s' := CompleteDmaTask(s, i, status).0;
    if s'.tasks[i].state.Done? {
      CompletionAppendedAfterRelease(s, i);
    } else {
      CompletionsUnmoved(s, s', s.calls - 1, s.calls);
    }
  }

  lemma CompletionAppendedAfterRelease(s: Sched, i: nat)
    requires Structure(s) && i < |s.tasks| && !s.tasks[i].state.Done?
    requires CompletionsBy(s, s.calls - 1)
    ensures Completed(FinishTask(s.(dmaOwner := None), i))
  {
    CompletionAppended(s, i);
    CompletionsUnmoved(FinishTask(s, i), FinishTask(s.(dmaOwner := None), i), s.calls, s.calls);
  }

  lemma ServeAcceleratorKeepsCompleted(s: Sched, event: Option<CompletionStatus>)
    requires Structure(s) && Completed(s)
    ensures Completed(ServeAccelerator(s, event))
  {
    if event.Some? && s.accelOwner.Some? {
      assert TaskOk(s, s.accelOwner.value);
    }
    CompletionsUnmoved(s, ServeAccelerator(s, event), s.calls, s.calls);
  }

  lemma ProceedKeepsCompleted(s: Sched)
    requires Structure(s) && Completed(s)
    ensures Completed(Proceed(s))
  {
    match SelectReady(s)
    case None =>
    case Some(i) =>
      LaunchKeepsStructure(s, i);
      CompletionsUnmoved(s, Launch(s, i), s.calls, s.calls);
  }

  lemma StepKeepsCompleted(s: Sched, a: Action)
    requires Structure(s) && Completed(s)
    ensures Completed(Step(s, a))
  {
    match a
    case Submission(r) =>
    case Call(ev) =>
      var s1 := CountCall(s);
      CountersKeepStructure(s, s1);
      CompletionsUnmoved(s, s1, s.calls, s.calls);
      ServeDmaKeepsStructure(s1, ev.dma);
      ServeDmaKeepsCompleted(s1, ev.dma);
      var s2 := ServeDma(s1, ev.dma);
      ServeAcceleratorKeepsStructure(s2, ev.accelerator);
      ServeAcceleratorKeepsCompleted(s2, ev.accelerator);
      var s3 := ServeAccelerator(s2, ev.accelerator);
      var s4 := ServeTimer(s3, ev.timer);
      CountersKeepStructure(s3, s4);
      CompletionsUnmoved(s3, s4, s3.calls, s3.calls);
      ProceedKeepsCompleted(s4);
  }

  /** In every run the completion order lists each DONE task once, nothing else, and completion times
      strictly increase along it. */
  lemma {:induction false} CompletionOrder(s: Sched, actions: seq<Action>)
    requires Structure(s) && Completed(s)
    ensures Completed(Exec(s, actions))
    decreases |actions|
  {
    if |actions| != 0 {
      StepKeepsStructure(s, actions[0]);
      StepKeepsCompleted(s, actions[0]);
      CompletionOrder(Step(s, actions[0]), actions[1..]);
    }
  }

  // ---- Timing ----

  /** When a task can be where it is, given the number of calls made; `margin` is 1 between the start of a
      call and its dispatch, and 0 between calls. */
  predicate TaskOnTime(t: Task, calls: nat, margin: nat) {
    var k := StageIndex(t.workload, t.phase);
    match t.state
    case Ready => t.submittedAt + k + (if k == 0 then margin else 1) <= calls
    case BlockedOnDma => t.submittedAt + k + 1 + margin <= calls
    case BlockedOnAccel => t.submittedAt + k + 1 + margin <= calls
    case Done => t.submittedAt + StageCount(t.workload) + 1 <= t.completedAt
    case Error => t.submittedAt + k + 2 <= t.completedAt
    case Running => false
  }

  predicate OnTime(s: Sched, margin: nat) {
    forall i :: 0 <= i < |s.tasks| ==> TaskOnTime(s.tasks[i], s.calls, margin)
  }

  lemma ServeDmaKeepsOnTime(s: Sched, event: Option<CompletionStatus>)
    requires Structure(s) && OnTime(s, 1)
    ensures OnTime(ServeDma(s, event), 1)
  {
    if event.Some? && s.dmaOwner.Some? {
      var i := s.dmaOwner.value;
      assert TaskOk(s, i) && TaskOnTime(s.tasks[i], s.calls, 1);
      if !s.tasks[i].workload.kind.DmaCopy? {
        AcceptedByteCounts(s.tasks[i].workload);
      }
    }
  }

  lemma ServeAcceleratorKeepsOnTime(s: Sched, event: Option<CompletionStatus>)
    requires Structure(s) && OnTime(s, 1)
    ensures OnTime(ServeAccelerator(s, event), 1)
  {
    if event.Some? && s.accelOwner.Some? {
      var i := s.accelOwner.value;
      assert TaskOk(s, i) && TaskOnTime(s.tasks[i], s.calls, 1);
    }
  }

  lemma ProceedKeepsOnTime(s: Sched)
    requires Structure(s) && OnTime(s, 1)
    ensures OnTime(Proceed(s), 0)
  {
    match SelectReady(s)
    case None =>
    case Some(i) =>
      assert TaskOk(s, i) && TaskOnTime(s.tasks[i], s.calls, 1);
  }

  lemma StepKeepsOnTime(s: Sched, a: Action)
    requires Structure(s) && OnTime(s, 0)
    ensures OnTime(Step(s, a), 0)
  {
    match a
    case Submission(r) =>
    case Call(ev) =>
      var s1 := CountCall(s);
      CountersKeepStructure(s, s1);
      assert OnTime(s1, 1);
      ServeDmaKeepsStructure(s1, ev.dma);
      ServeDmaKeepsOnTime(s1, ev.dma);
      var s2 := ServeDma(s1, ev.dma);
      ServeAcceleratorKeepsStructure(s2, ev.accelerator);
      ServeAcceleratorKeepsOnTime(s2, ev.accelerator);
      var s3 := ServeAccelerator(s2, ev.accelerator);
      CountersKeepStructure(s3, ServeTimer(s3, ev.timer));
      assert OnTime(ServeTimer(s3, ev.timer), 1);
      ProceedKeepsOnTime(ServeTimer(s3, ev.timer));
  }

  /** In every run a task with L operations completes no earlier than L + 1 calls after its submission. */
  lemma {:induction false} CompletionTiming(s: Sched, actions: seq<Action>)
    requires Structure(s) && OnTime(s, 0)
    ensures OnTime(Exec(s, actions), 0)
    decreases |actions|
  {
    if |actions| != 0 {
      StepKeepsStructure(s, actions[0]);
      StepKeepsOnTime(s, actions[0]);
      CompletionTiming(Step(s, actions[0]), actions[1..]);
    }
  }

  lemma ServeDmaStamps(s: Sched, event: Option<CompletionStatus>, i: nat)
    requires Structure(s) && i < |s.tasks|
    ensures var t := s.tasks[i]; var t' := ServeDma(s, event).tasks[i];
      && t'.submittedAt == t.submittedAt
      && (Terminal(t) ==> t' == t)
      && (Terminal(t') ==> t' == t || (t'.completedAt == s.calls && !Terminal(t)))
  {
    assert TaskOk(s, i);
  }

  lemma ServeAcceleratorStamps(s: Sched, event: Option<CompletionStatus>, i: nat)
    requires Structure(s) && i < |s.tasks|
    ensures var t := s.tasks[i]; var t' := ServeAccelerator(s, event).tasks[i];
      && t'.submittedAt == t.submittedAt
      && (Terminal(t) ==> t' == t)
      && (Terminal(t') ==> t' == t || (t'.completedAt == s.calls && !Terminal(t)))
  {
    assert TaskOk(s, i);
  }

  lemma ProceedStamps(s: Sched, i: nat)
    requires Structure(s) && i < |s.tasks|
    ensures var t := s.tasks[i]; var t' := Proceed(s).tasks[i];
      t'.submittedAt == t.submittedAt && (Terminal(t') || Terminal(t) ==> t' == t)
  {
    match SelectReady(s)
    case None =>
    case Some(j) => LaunchKeepsStructure(s, j);
  }

  lemma CallStamps(s: Sched, ev: Events, i: nat)
    requires Structure(s) && i < |s.tasks|
    ensures var t := s.tasks[i]; var t' := StepCall(s, ev).tasks[i];
      && t'.submittedAt == t.submittedAt
      && (Terminal(t') ==> t' == t || (t'.completedAt == s.calls + 1 && !Terminal(t)))
  {
    var s1 := CountCall(s);
    CountersKeepStructure(s, s1);
    ServeDmaKeepsStructure(s1, ev.dma);
    ServeDmaStamps(s1, ev.dma, i);
    ServeDmaCounts(s1, ev.dma);
    var s2 := ServeDma(s1, ev.dma);
    ServeAcceleratorKeepsStructure(s2, ev.accelerator);
    ServeAcceleratorStamps(s2, ev.accelerator, i);
    var s3 := ServeAccelerator(s2, ev.accelerator);
    ServeAcceleratorCounts(s2, ev.accelerator);
    var s4 := ServeTimer(s3, ev.timer);
    CountersKeepStructure(s3, s4);
    ProceedStamps(s4, i);
  }

  /** The times are exact: a submitted task carries the number of calls made so far, that stamp never
      changes, and a task that becomes terminal in a call carries the number of that call. */
  lemma TimeStamps(s: Sched, a: Action, i: nat)
    requires Structure(s) && i < |Step(s, a).tasks|
    ensures var s' := Step(s, a);
      if i >= |s.tasks| then a.Submission? && s'.tasks[i].submittedAt == s.calls
      else
        && s'.tasks[i].submittedAt == s.tasks[i].submittedAt
        && (Terminal(s'.tasks[i]) && !Terminal(s.tasks[i]) ==> s'.tasks[i].completedAt == s'.calls)
  {
    match a
    case Submission(r) =>
    case Call(ev) =>
      CallStamps(s, ev, i);
      CallOutcome(s, ev);
  }

  /** Calls that saw the timer bit pending. */
  function TimerCalls(actions: seq<Action>): nat {
    if |actions| == 0 then 0
    else (if actions[0].Call? && actions[0].events.timer then 1 else 0) + TimerCalls(actions[1..])
  }

  /** The tick count is the number of calls that observed the timer. */
  lemma {:induction false} TimerTicksCounted(s: Sched, actions: seq<Action>)
    requires Structure(s)
    ensures Exec(s, actions).timerTicks == s.timerTicks + TimerCalls(actions)
    decreases |actions|
  {
    if |actions| != 0 {
      StepKeepsStructure(s, actions[0]);
      if actions[0].Call? {
        CallTicks(s, actions[0].events);
      }
      TimerTicksCounted(Step(s, actions[0]), actions[1..]);
    }
  }

  lemma CallTicks(s: Sched, ev: Events)
    requires Structure(s)
    ensures StepCall(s, ev).timerTicks == s.timerTicks + (if ev.timer then 1 else 0)
  {
    var s1 := CountCall(s);
    ServeDmaTicks(s1, ev.dma);
    ServeAcceleratorTicks(ServeDma(s1, ev.dma), ev.accelerator);
    ProceedTicks(Served(s, ev));
  }

  lemma ServeDmaTicks(s: Sched, event: Option<CompletionStatus>)
    requires Indexed(s)
    ensures ServeDma(s, event).timerTicks == s.timerTicks
  {
  }

  lemma ServeAcceleratorTicks(s: Sched, event: Option<CompletionStatus>)
    requires Indexed(s)
    ensures ServeAccelerator(s, event).timerTicks == s.timerTicks
  {
  }

  lemma ProceedTicks(s: Sched)
    requires Indexed(s)
    ensures Proceed(s).timerTicks == s.timerTicks
  {
  }

  // ---- Terminal tasks ----

  /** DONE and ERROR never change: a terminal task is the same in every later state. */
  lemma {:induction false} TerminalIsForever(s: Sched, actions: seq<Action>, i: nat)
    requires Structure(s) && i < |s.tasks| && Terminal(s.tasks[i])
    ensures i < |Exec(s, actions).tasks| && Exec(s, actions).tasks[i] == s.tasks[i]
    decreases |actions|
  {
    if |actions| != 0 {
      StepKeepsStructure(s, actions[0]);
      TerminalSurvivesStep(s, actions[0], i);
      TerminalIsForever(Step(s, actions[0]), actions[1..], i);
    }
  }

  lemma TerminalSurvivesStep(s: Sched, a: Action, i: nat)
    requires Structure(s) && i < |s.tasks| && Terminal(s.tasks[i])
    ensures i < |Step(s, a).tasks| && Step(s, a).tasks[i] == s.tasks[i]
  {
    match a
    case Submission(r) =>
    case Call(ev) =>
      var s1 := CountCall(s);
      CountersKeepStructure(s, s1);
      ServeDmaFrame(s1, ev.dma, i);
      ServeDmaKeepsStructure(s1, ev.dma);
      var s2 := ServeDma(s1, ev.dma);
      ServeAcceleratorFrame(s2, ev.accelerator, i);
      var s3 := ServeAccelerator(s2, ev.accelerator);
      ProceedFrame(ServeTimer(s3, ev.timer), i);
  }

  // ---- Stalls and deadlock ----

  /** A non-terminal task that is not ready is waiting for the hardware, and a ready task is only passed
      over when its resource is in use: so a stall means an operation is in flight. */
  lemma {:induction false} NoSelectionNoCandidate(s: Sched, n: nat, i: nat)
    requires n <= |s.tasks| && i < n && SelectAmong(s, n) == None
    ensures !Candidate(s, i)
  {
    if i != n - 1 {
      NoSelectionNoCandidate(s, n - 1, i);
    }
  }

  lemma StallMeansInFlight(s: Sched)
    requires Structure(s) && SelectReady(s).None? && !AllTerminal(s)
    ensures s.dmaOwner.Some? || s.accelOwner.Some?
  {
    var i :| 0 <= i < |s.tasks| && !Terminal(s.tasks[i]);
    assert TaskOk(s, i);
    NoSelectionNoCandidate(s, |s.tasks|, i);
  }

  /** Calls that found every task terminal. */
  function IdleCalls(s: Sched, actions: seq<Action>): nat
    requires Indexed(s)
    decreases |actions|
  {
    if |actions| == 0 then 0
    else
      (if actions[0].Call? && AllTerminal(Served(s, actions[0].events)) then 1 else 0)
      + IdleCalls(Step(s, actions[0]), actions[1..])
  }

  lemma ServeKeepsCounts(s: Sched, ev: Events)
    requires Indexed(s)
    ensures Served(s, ev).dispatchOrder == s.dispatchOrder && Served(s, ev).stalls == s.stalls
    ensures Served(s, ev).calls == s.calls + 1
  {
    var s1 := CountCall(s);
    ServeDmaCounts(s1, ev.dma);
    ServeAcceleratorCounts(ServeDma(s1, ev.dma), ev.accelerator);
  }

  /** Each call dispatches one operation, counts one stall, or finds every task terminal; a counted stall
      has an operation in flight. */
  lemma CallOutcome(s: Sched, ev: Events)
    requires Structure(s)
    ensures var s1 := Served(s, ev); var s' := StepCall(s, ev);
      && s'.calls == s.calls + 1
      && |s'.dispatchOrder| + s'.stalls + (if AllTerminal(s1) then 1 else 0) == |s.dispatchOrder| + s.stalls + 1
      && (s'.stalls > s.stalls ==> s'.dmaOwner.Some? || s'.accelOwner.Some?)
  {
    ServeKeepsCounts(s, ev);
    ServedKeepsStructure(s, ev);
    var s1 := Served(s, ev);
    match SelectReady(s1)
    case None =>
      if !AllTerminal(s1) {
        StallMeansInFlight(s1);
      }
    case Some(i) =>
      LaunchKeepsStructure(s1, i);
      assert !Terminal(s1.tasks[i]);
  }

  /** Deadlock freedom over runs: calls = dispatches + stalls + calls made when all tasks were terminal. */
  lemma {:induction false} CallConservation(s: Sched, actions: seq<Action>)
    requires Structure(s)
    ensures var s' := Exec(s, actions);
      s'.calls - s.calls == (|s'.dispatchOrder| - |s.dispatchOrder|) + (s'.stalls - s.stalls) + IdleCalls(s, actions)
    decreases |actions|
  {
    if |actions| != 0 {
      StepKeepsStructure(s, actions[0]);
      if actions[0].Call? {
        CallOutcome(s, actions[0].events);
      }
      CallConservation(Step(s, actions[0]), actions[1..]);
    }
  }
}

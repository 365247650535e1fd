/** A bound on the number of calls until every task is terminal. */
module Termination {
  import opened Words
  import opened DeviceModel
  import opened Tasks
  import opened Layout
  import opened SchedulerSpec
  import opened SchedulerSteps
  import opened Accounting
  import opened Priority

  /** Operations a task has still to dispatch. */
  function Left(t: Task): nat {
    if Terminal(t) then 0
    else
      var rest := StageCount(t.workload) - StageIndex(t.workload, t.phase) - (if Blocked(t) then 1 else 0);
      if rest < 0 then 0 else rest
  }

  function TotalLeft(tasks: seq<Task>): nat {
    if |tasks| == 0 then 0 else TotalLeft(tasks[..|tasks| - 1]) + Left(tasks[|tasks| - 1])
  }

  lemma {:induction false} TotalLeftUpdate(tasks: seq<Task>, i: nat, t: Task)
    requires i < |tasks|
    ensures TotalLeft(tasks[i := t]) == TotalLeft(tasks) - Left(tasks[i]) + Left(t)
    decreases |tasks|
  {
    var n := |tasks| - 1;
    if i == n {
      assert tasks[i := t][..n] == tasks[..n];
    } else {
      assert tasks[i := t][..n] == tasks[..n][i := t];
      TotalLeftUpdate(tasks[..n], i, t);
    }
  }

  lemma {:induction false} TotalLeftZero(tasks: seq<Task>, i: nat)
    requires i < |tasks| && TotalLeft(tasks) == 0
    ensures Left(tasks[i]) == 0
    decreases |tasks|
  {
    if i < |tasks| - 1 {
      TotalLeftZero(tasks[..|tasks| - 1], i);
    }
  }

  /** A state with the ages, in calls, of the two operations in flight. */
  datatype Timed = Timed(s: Sched, dmaAge: nat, accelAge: nat)

  function Age(owner: Option<nat>, event: Option<CompletionStatus>, age: nat): nat {
    if owner.Some? && event.None? then age + 1 else 0
  }

  function TimedCall(t: Timed, ev: Events): Timed
    requires Indexed(t.s)
  {
    Timed(StepCall(t.s, ev), Age(t.s.dmaOwner, ev.dma, t.dmaAge), Age(t.s.accelOwner, ev.accelerator, t.accelAge))
  }

  /** Every operation is observed complete at the latest by the `bound`-th call after its dispatch. */
  predicate PromptCall(t: Timed, ev: Events, bound: nat) {
    && (t.s.dmaOwner.Some? && t.dmaAge + 1 >= bound ==> ev.dma.Some?)
    && (t.s.accelOwner.Some? && t.accelAge + 1 >= bound ==> ev.accelerator.Some?)
  }

  predicate Prompt(t: Timed, evs: seq<Events>, bound: nat)
    requires Indexed(t.s)
    decreases |evs|
  {
    |evs| == 0 || (PromptCall(t, evs[0], bound) && Prompt(TimedCall(t, evs[0]), evs[1..], bound))
  }

  predicate Young(t: Timed, bound: nat) {
    (t.s.dmaOwner.Some? ==> t.dmaAge < bound) && (t.s.accelOwner.Some? ==> t.accelAge < bound)
  }

  function Remaining(owner: Option<nat>, age: nat, bound: nat): int {
    if owner.Some? then bound - age else 0
  }

  /** `bound` for each operation still to dispatch plus the time left to the operations in flight. */
  function Weight(t: Timed, bound: nat): int {
    bound * TotalLeft(t.s.tasks)
    + Remaining(t.s.dmaOwner, t.dmaAge, bound) + Remaining(t.s.accelOwner, t.accelAge, bound)
  }

  lemma ServeDmaLeft(s: Sched, event: Option<CompletionStatus>)
    requires Structure(s)
    ensures TotalLeft(ServeDma(s, event).tasks) <= TotalLeft(s.tasks)
  {
    if event.Some? && s.dmaOwner.Some? {
      var i := s.dmaOwner.value;
      assert TaskOk(s, i);
      ServeDmaKeepsStructure(s, event);
      var s' := ServeDma(s, event);
      if !s.tasks[i].workload.kind.DmaCopy? {
        AcceptedByteCounts(s.tasks[i].workload);
      }
      assert s'.tasks == s.tasks[i := s'.tasks[i]];
      TotalLeftUpdate(s.tasks, i, s'.tasks[i]);
    }
  }

  lemma ServeAcceleratorLeft(s: Sched, event: Option<CompletionStatus>)
    requires Structure(s)
    ensures TotalLeft(ServeAccelerator(s, event).tasks) <= TotalLeft(s.tasks)
  {
    if event.Some? && s.accelOwner.Some? {
      var i := s.accelOwner.value;
      assert TaskOk(s, i);
      var s' := ServeAccelerator(s, event);
      assert s'.tasks == s.tasks[i := s'.tasks[i]];
      TotalLeftUpdate(s.tasks, i, s'.tasks[i]);
    }
  }

  lemma ServedLeft(s: Sched, ev: Events)
    requires Structure(s)
    ensures TotalLeft(Served(s, ev).tasks) <= TotalLeft(s.tasks)
  {
    var s1 := CountCall(s);
    CountersKeepStructure(s, s1);
    ServeDmaLeft(s1, ev.dma);
    ServeDmaKeepsStructure(s1, ev.dma);
    ServeAcceleratorLeft(ServeDma(s1, ev.dma), ev.accelerator);
  }

  /** A launch trades one operation to dispatch for one in flight. */
  lemma LaunchLeft(s: Sched, i: nat)
    requires Structure(s) && i < |s.tasks| && Candidate(s, i)
    ensures var s' := Launch(s, i);
      && TotalLeft(s'.tasks) == TotalLeft(s.tasks) - 1
      && (if s.tasks[i].phase.Execute? then s.accelOwner.None? && s'.accelOwner.Some? && s'.dmaOwner == s.dmaOwner
          else s.dmaOwner.None? && s'.dmaOwner.Some? && s'.accelOwner == s.accelOwner)
  {
    assert TaskOk(s, i);
    LaunchKeepsStructure(s, i);
    var s' := Launch(s, i);
    assert s'.tasks == s.tasks[i := s'.tasks[i]];
    TotalLeftUpdate(s.tasks, i, s'.tasks[i]);
  }

  /** The timed state after the completions of a call are served. */
  function TimedServed(t: Timed, ev: Events): Timed
    requires Indexed(t.s)
  {
    Timed(Served(t.s, ev), Age(t.s.dmaOwner, ev.dma, t.dmaAge), Age(t.s.accelOwner, ev.accelerator, t.accelAge))
  }

  lemma MulMonotone(k: nat, m: nat, n: nat)
    requires m <= n
    ensures k * m <= k * n
  {
  }

  lemma MulPredecessor(k: nat, n: nat)
    ensures k * (n - 1) == k * n - k
  {
  }

  lemma ServingLowersWeight(t: Timed, ev: Events, bound: nat)
    requires Structure(t.s) && bound >= 1 && Young(t, bound) && PromptCall(t, ev, bound)
    ensures Young(TimedServed(t, ev), bound)
    ensures Weight(TimedServed(t, ev), bound)
         <= Weight(t, bound) - (if t.s.dmaOwner.Some? || t.s.accelOwner.Some? then 1 else 0)
  {
    ServedLeft(t.s, ev);
    ServedOwners(t.s, ev);
    MulMonotone(bound, TotalLeft(Served(t.s, ev).tasks), TotalLeft(t.s.tasks));
  }

  /** Launching trades `bound` of the weight for an operation of age 0. */
  lemma ProceedingKeepsWeight(t: Timed, bound: nat)
    requires Structure(t.s) && bound >= 1 && Young(t, bound)
    requires (t.s.dmaOwner.None? ==> t.dmaAge == 0) && (t.s.accelOwner.None? ==> t.accelAge == 0)
    ensures var t' := Timed(Proceed(t.s), t.dmaAge, t.accelAge);
      Young(t', bound) && Weight(t', bound) == Weight(t, bound)
  {
    match SelectReady(t.s)
    case None =>
    case Some(i) =>
      LaunchLeft(t.s, i);
      MulPredecessor(bound, TotalLeft(t.s.tasks));
  }

  /** Each call keeps the ages within the bound and lowers the weight by one if anything was in flight. */
  lemma CallLowersWeight(t: Timed, ev: Events, bound: nat)
    requires Structure(t.s) && bound >= 1 && Young(t, bound) && PromptCall(t, ev, bound)
    ensures Young(TimedCall(t, ev), bound)
    ensures Weight(TimedCall(t, ev), bound)
         <= Weight(t, bound) - (if t.s.dmaOwner.Some? || t.s.accelOwner.Some? then 1 else 0)
  {
    ServedKeepsStructure(t.s, ev);
    ServingLowersWeight(t, ev, bound);
    ServedOwners(t.s, ev);
    ProceedingKeepsWeight(TimedServed(t, ev), bound);
  }

  /** After a call, an unfinished workload has an operation in flight. */
  lemma InFlightAfterCall(s: Sched, ev: Events)
    requires Structure(s)
    ensures var s' := StepCall(s, ev); AllTerminal(s') || s'.dmaOwner.Some? || s'.accelOwner.Some?
  {
    ServedKeepsStructure(s, ev);
    var s1 := Served(s, ev);
    match SelectReady(s1)
    case None =>
      if !AllTerminal(s1) {
        StallMeansInFlight(s1);
      }
    case Some(i) => LaunchKeepsStructure(s1, i);
  }

  lemma AllTerminalIsForever(s: Sched, evs: seq<Events>)
    requires Structure(s) && AllTerminal(s)
    ensures AllTerminal(Exec(s, Calls(evs)))
  {
    forall i | 0 <= i < |s.tasks|
      ensures i < |Exec(s, Calls(evs)).tasks| && Terminal(Exec(s, Calls(evs)).tasks[i])
    {
      TerminalIsForever(s, Calls(evs), i);
    }
    CallsKeepTaskCount(s, evs);
  }

  lemma {:induction false} CallsKeepTaskCount(s: Sched, evs: seq<Events>)
    requires Structure(s)
    ensures |Exec(s, Calls(evs)).tasks| == |s.tasks|
    decreases |evs|
  {
    if |evs| != 0 {
      CallsTail(evs);
      StepKeepsStructure(s, Call(evs[0]));
      CallsKeepTaskCount(StepCall(s, evs[0]), evs[1..]);
    }
  }

  lemma WeightlessIsTerminal(t: Timed, bound: nat)
    requires Structure(t.s) && bound >= 1 && Young(t, bound) && Weight(t, bound) <= 0
    ensures AllTerminal(t.s)
  {
    var n := TotalLeft(t.s.tasks);
    MulMonotone(n, 1, bound);
    assert bound * n >= n;
    forall i | 0 <= i < |t.s.tasks|
      ensures Terminal(t.s.tasks[i])
    {
      assert TaskOk(t.s, i);
      TotalLeftZero(t.s.tasks, i);
    }
  }

  lemma {:induction false} DrainInFlight(t: Timed, evs: seq<Events>, bound: nat)
    requires Structure(t.s) && bound >= 1 && Young(t, bound) && Prompt(t, evs, bound)
    requires AllTerminal(t.s) || t.s.dmaOwner.Some? || t.s.accelOwner.Some?
    requires |evs| >= Weight(t, bound)
    ensures AllTerminal(Exec(t.s, Calls(evs)))
    decreases |evs|
  {
    if AllTerminal(t.s) {
      AllTerminalIsForever(t.s, evs);
    } else if |evs| == 0 {
      WeightlessIsTerminal(t, bound);
    } else {
      CallsTail(evs);
      CallLowersWeight(t, evs[0], bound);
      StepKeepsStructure(t.s, Call(evs[0]));
      InFlightAfterCall(t.s, evs[0]);
      DrainInFlight(TimedCall(t, evs[0]), evs[1..], bound);
    }
  }

  /** Termination: when every operation is observed complete within `bound` calls, all tasks are terminal
      after at most 1 + `Weight` calls: `bound` for every operation still to dispatch, plus what is left
      of the operations in flight. */
  lemma TerminationBound(t: Timed, evs: seq<Events>, bound: nat)
    requires Structure(t.s) && bound >= 1 && Young(t, bound) && Prompt(t, evs, bound)
    requires |evs| >= 1 + Weight(t, bound)
    ensures AllTerminal(Exec(t.s, Calls(evs)))
  {
    WeightIsNonnegative(t, bound);
    CallsTail(evs);
    CallLowersWeight(t, evs[0], bound);
    StepKeepsStructure(t.s, Call(evs[0]));
    InFlightAfterCall(t.s, evs[0]);
    DrainInFlight(TimedCall(t, evs[0]), evs[1..], bound);
  }

  lemma WeightIsNonnegative(t: Timed, bound: nat)
    requires Young(t, bound)
    ensures Weight(t, bound) >= 0
  {
    MulMonotone(bound, 0, TotalLeft(t.s.tasks));
  }

  /** All operations of all tasks. */
  function TotalStages(tasks: seq<Task>): nat {
    if |tasks| == 0 then 0 else TotalStages(tasks[..|tasks| - 1]) + StageCount(tasks[|tasks| - 1].workload)
  }

  lemma {:induction false} LeftAtMostStages(tasks: seq<Task>)
    ensures TotalLeft(tasks) <= TotalStages(tasks)
  {
    if |tasks| != 0 {
      LeftAtMostStages(tasks[..|tasks| - 1]);
    }
  }

  lemma {:induction false} StagesOfUpdate(tasks: seq<Task>, i: nat, t: Task)
    requires i < |tasks| && t.workload == tasks[i].workload
    ensures TotalStages(tasks[i := t]) == TotalStages(tasks)
    decreases |tasks|
  {
    var n := |tasks| - 1;
    if i == n {
      assert tasks[i := t][..n] == tasks[..n];
    } else {
      assert tasks[i := t][..n] == tasks[..n][i := t];
      StagesOfUpdate(tasks[..n], i, t);
    }
  }

  /** The tasks with the owner, if any, put back before its operation. */
  function Undispatched(tasks: seq<Task>, owner: Option<nat>): seq<Task> {
    if owner.Some? && owner.value < |tasks| then tasks[owner.value := tasks[owner.value].(state := Ready)] else tasks
  }

  lemma UndispatchedLeft(s: Sched, tasks: seq<Task>, owner: Option<nat>)
    requires Structure(s) && |tasks| == |s.tasks| && (owner == s.dmaOwner || owner == s.accelOwner)
    requires owner.Some? ==> tasks[owner.value] == s.tasks[owner.value]
    ensures TotalLeft(Undispatched(tasks, owner)) == TotalLeft(tasks) + (if owner.Some? then 1 else 0)
    ensures TotalStages(Undispatched(tasks, owner)) == TotalStages(tasks)
  {
    if owner.Some? {
      var i := owner.value;
      assert TaskOk(s, i);
      TotalLeftUpdate(tasks, i, tasks[i].(state := Ready));
      StagesOfUpdate(tasks, i, tasks[i].(state := Ready));
    }
  }

  /** Operations to dispatch and in flight are at most all operations: from any state, whatever has been
      dispatched, the weight is at most `bound` for every stage of every task. */
  lemma WeightAtMostStages(s: Sched, bound: nat)
    requires Structure(s)
    ensures 0 <= Weight(Timed(s, 0, 0), bound) <= bound * TotalStages(s.tasks)
  {
    var one := Undispatched(s.tasks, s.dmaOwner);
    var two := Undispatched(one, s.accelOwner);
    UndispatchedLeft(s, s.tasks, s.dmaOwner);
    if s.accelOwner.Some? {
      assert TaskOk(s, s.accelOwner.value);
    }
    UndispatchedLeft(s, one, s.accelOwner);
    LeftAtMostStages(two);
    WeightInStages(TotalLeft(s.tasks), s.dmaOwner.Some?, s.accelOwner.Some?, TotalStages(s.tasks), bound);
  }

  lemma WeightInStages(left: nat, dma: bool, accel: bool, stages: nat, bound: nat)
    requires left + (if dma then 1 else 0) + (if accel then 1 else 0) <= stages
    ensures bound * left + (if dma then bound else 0) + (if accel then bound else 0) <= bound * stages
    ensures bound * left >= 0
  {
    var n := left + (if dma then 1 else 0) + (if accel then 1 else 0);
    MulMonotone(bound, n, stages);
    assert bound * n == bound * left + (if dma then bound else 0) + (if accel then bound else 0);
  }
}

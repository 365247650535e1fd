/** Operation accounting between the scheduler and the hardware: nothing is started twice, nothing is
    lost, and tasks fail exactly as often as the hardware reports faults. */
module Ledger {
  import opened Words
  import opened DeviceModel
  import opened Tasks
  import opened SchedulerSpec
  import opened SchedulerSteps
  import opened Interference
  import opened Runs

  predicate IsFault(r: Retired) {
    r.DmaFault? || r.CommandFault?
  }

  function Faults(retired: seq<Retired>): nat {
    if |retired| == 0 then 0
    else Faults(retired[..|retired| - 1]) + (if IsFault(retired[|retired| - 1]) then 1 else 0)
  }

  function Failures(tasks: seq<Task>): nat {
    if |tasks| == 0 then 0
    else Failures(tasks[..|tasks| - 1]) + (if tasks[|tasks| - 1].state.Error? then 1 else 0)
  }

  function One(b: bool): nat {
    if b then 1 else 0
  }

  lemma {:induction false} FailuresUpdate(tasks: seq<Task>, i: nat, t: Task)
    requires i < |tasks|
    ensures Failures(tasks[i := t]) == Failures(tasks) - One(tasks[i].state.Error?) + One(t.state.Error?)
    decreases |tasks|
  {
    var n := |tasks| - 1;
    if i == n {
      assert tasks[i := t][..n] == tasks[..n];
    } else {
      assert tasks[i := t][..n] == tasks[..n][i := t];
      FailuresUpdate(tasks[..n], i, t);
    }
  }

  /** Operations in flight. */
  function InFlight(s: Sched, d: Device): nat {
    One(s.dmaOwner.Some? && DmaBusy(d)) + One(s.accelOwner.Some? && CommandBusy(d))
  }

  /** Faults the hardware has reported and the scheduler has not served yet. */
  function Unserved(s: Sched, d: Device): nat {
    One(s.dmaOwner.Some? && !DmaBusy(d) && DmaStatus(d).error)
    + One(s.accelOwner.Some? && !CommandBusy(d) && CommandStatus(d).error)
  }

  /** Since the device had retired `before`: every dispatched operation is in flight or retired, and
      every fault has failed a task or is about to. */
  predicate Balanced(s: Sched, d: Device, before: seq<Retired>) {
    && |d.retired| + InFlight(s, d) == |before| + |s.dispatchOrder|
    && Faults(d.retired) == Faults(before) + Failures(s.tasks) + Unserved(s, d)
  }

  lemma FaultsAppend(retired: seq<Retired>, r: Retired)
    ensures Faults(retired + [r]) == Faults(retired) + One(IsFault(r))
  {
    assert (retired + [r])[..|retired|] == retired;
  }

  lemma DmaCompletionBalanced(s: Sched, d: Device, v: Verdict, before: seq<Retired>)
    requires Sound(s, d) && Balanced(s, d, before)
    ensures Balanced(s, TickDma(d, v), before)
  {
    if DmaBusy(d) && !v.Waiting? {
      FaultsAppend(d.retired, TickDma(d, v).retired[|d.retired|]);
    }
  }

  lemma CommandCompletionBalanced(s: Sched, d: Device, v: Verdict, before: seq<Retired>)
    requires Sound(s, d) && Balanced(s, d, before)
    ensures Balanced(s, TickAccelerator(d, v), before)
  {
    if CommandBusy(d) && !v.Waiting? {
      FaultsAppend(d.retired, TickAccelerator(d, v).retired[|d.retired|]);
    }
  }

  lemma DmaWakeupBalanced(s: Sched, d: Device, before: seq<Retired>)
    requires Sound(s, d) && s.dmaOwner.Some? && !DmaBusy(d) && Balanced(s, d, before)
    ensures Balanced(ServeDma(s, Some(DmaStatus(d))), d, before)
  {
    var i := s.dmaOwner.value;
    assert TaskOk(s, i);
    ServeDmaKeepsStructure(s, Some(DmaStatus(d)));
    var s' := ServeDma(s, Some(DmaStatus(d)));
    FailuresUpdate(s.tasks, i, s'.tasks[i]);
  }

  lemma CommandWakeupBalanced(s: Sched, d: Device, before: seq<Retired>)
    requires Sound(s, d) && s.accelOwner.Some? && !CommandBusy(d) && Balanced(s, d, before)
    ensures Balanced(ServeAccelerator(s, Some(CommandStatus(d))), d, before)
  {
    var i := s.accelOwner.value;
    assert TaskOk(s, i);
    var s' := ServeAccelerator(s, Some(CommandStatus(d)));
    FailuresUpdate(s.tasks, i, s'.tasks[i]);
  }

  lemma LaunchFailsNobody(s: Sched, i: nat)
    requires i < |s.tasks| && Candidate(s, i) && !s.tasks[i].phase.Complete?
    ensures Failures(Launch(s, i).tasks) == Failures(s.tasks)
  {
    var s' := Launch(s, i);
    assert s'.tasks == s.tasks[i := s'.tasks[i]];
    FailuresUpdate(s.tasks, i, s'.tasks[i]);
  }

  lemma DmaLaunchBalanced(env: Env, i: nat, s: Sched, d: Device, d': Device, before: seq<Retired>)
    requires Sound(s, d) && i < |s.tasks|
    requires Moves(env, DmaLaunches(i), s, d, Launch(s, i), d') && Balanced(s, d, before)
    ensures Balanced(Launch(s, i), d', before)
  {
    LaunchFailsNobody(s, i);
    assert InFlight(Launch(s, i), d') == InFlight(s, d) + 1;
    assert Unserved(Launch(s, i), d') == Unserved(s, d);
  }

  lemma AcceleratorLaunchBalanced(env: Env, i: nat, s: Sched, d: Device, d': Device, before: seq<Retired>)
    requires Sound(s, d) && i < |s.tasks|
    requires Moves(env, AcceleratorLaunches(i), s, d, Launch(s, i), d') && Balanced(s, d, before)
    ensures Balanced(Launch(s, i), d', before)
  {
    LaunchFailsNobody(s, i);
    assert InFlight(Launch(s, i), d') == InFlight(s, d) + 1;
    assert Unserved(Launch(s, i), d') == Unserved(s, d);
  }

  lemma UnseenBalanced(s: Sched, d: Device, s': Sched, d': Device, before: seq<Retired>)
    requires Balanced(s, d, before) && SameLedger(s, s') && SameProgress(s, d, d')
    ensures Balanced(s', d', before)
  {
  }

  lemma TickBalanced(env: Env, s: Sched, d: Device, before: seq<Retired>)
    requires Sound(s, d) && Balanced(s, d, before)
    ensures Balanced(s, Tick(env, d), before)
  {
    TickParts(env, s, d);
    var step := env(d.time);
    DmaCompletionBalanced(s, d, step.dma, before);
    var d1 := TickDma(d, step.dma);
    CommandCompletionBalanced(s, d1, step.accelerator, before);
    UnseenBalanced(s, TickAccelerator(d1, step.accelerator), s, Tick(env, d), before);
  }

  lemma MoveBalanced(env: Env, m: Move, s: Sched, d: Device, s': Sched, d': Device, before: seq<Retired>)
    requires Sound(s, d) && Moves(env, m, s, d, s', d') && Balanced(s, d, before)
    ensures Balanced(s', d', before)
  {
    match m
    case HardwareTicks => TickBalanced(env, s, d, before);
    case DmaWakes => DmaWakeupBalanced(s, d, before);
    case AcceleratorWakes => CommandWakeupBalanced(s, d, before);
    case DmaLaunches(i) => DmaLaunchBalanced(env, i, s, d, d', before);
    case AcceleratorLaunches(i) => AcceleratorLaunchBalanced(env, i, s, d, d', before);
    case Unseen => UnseenBalanced(s, d, s', d', before);
  }

  function Balance(before: seq<Retired>): Property {
    (s, d) => Balanced(s, d, before)
  }

  lemma BalanceIsStable(env: Env, before: seq<Retired>)
    ensures Stable(env, Balance(before)) && SurvivesSubmission(Balance(before))
  {
    forall m, s, d, s', d' | Sound(s, d) && Moves(env, m, s, d, s', d') && Balance(before)(s, d)
      ensures Balance(before)(s', d')
    {
      MoveBalanced(env, m, s, d, s', d', before);
    }
    forall s, d, r | Sound(s, d) && Balance(before)(s, d)
      ensures Balance(before)(Submit(s, r).0, d)
    {
      SubmissionBalanced(s, d, r, before);
    }
  }

  lemma SubmissionBalanced(s: Sched, d: Device, r: Request, before: seq<Retired>)
    requires Balanced(s, d, before)
    ensures Balanced(Submit(s, r).0, d, before)
  {
    var s' := Submit(s, r).0;
    if s' != s {
      assert s'.tasks[..|s.tasks|] == s.tasks;
    }
  }

  /** Conservation of operations over every run from boot: each dispatched operation leaves the hardware
      exactly once or is still in flight, and the tasks in ERROR are exactly as many as the reported
      faults whose completions have been served. */
  lemma OperationsAreConserved(env: Env, d: Device, interval: U32, activities: seq<Activity>)
    requires Idle(d)
    ensures var end := Run(env, Started(env, d, interval), activities);
      Balanced(end.sched, end.device, d.retired)
  {
    BootLinks(env, d, interval);
    var start := Started(env, d, interval);
    BalanceIsStable(env, d.retired);
    assert Balance(d.retired)(EMPTY, start.device);
    RunSurvives(Balance(d.retired), env, start, activities);
  }

  /** When every task is terminal, nothing is in flight, and the faults equal the failed tasks: without
      a fault every task is DONE. */
  lemma TerminalBalance(s: Sched, d: Device, before: seq<Retired>)
    requires Sound(s, d) && Balanced(s, d, before) && AllTerminal(s)
    ensures |d.retired| == |before| + |s.dispatchOrder|
    ensures Faults(d.retired) == Faults(before) + Failures(s.tasks)
  {
    forall i | 0 <= i < |s.tasks|
      ensures s.dmaOwner != Some(i) && s.accelOwner != Some(i)
    {
      assert TaskOk(s, i);
    }
  }
}

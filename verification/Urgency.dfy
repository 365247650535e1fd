/** Bounded priority inversion over a task's whole life: a task of strictly highest priority waits for at
    most one foreign operation per stage, however many tasks are queued. */
module Urgency {
  import opened Words
  import opened DeviceModel
  import opened Tasks
  import opened Layout
  import opened SchedulerSpec
  import opened SchedulerSteps
  import opened Interference
  import opened Accounting
  import opened Priority
  import opened Termination
  import opened Runs
  import opened Liveness
  import opened Recording
  import opened Protocol

  function AgeFor(t: Timed, phase: TaskPhase): nat {
    if phase.Execute? then t.accelAge else t.dmaAge
  }

  /** What is left of the operation that owns the resource of `phase`. */
  function Pending(t: Timed, phase: TaskPhase, bound: nat): int {
    Remaining(OwnerFor(t.s, phase), AgeFor(t, phase), bound)
  }

  /** Calls until task `h` is terminal: `bound` to wait and `bound` to run for every operation left, except
      that a ready task's current wait is what is left of the operation it waits for, and a blocked task
      has its own operation to finish first. */
  function Urgency(t: Timed, h: nat, bound: nat): int
    requires h < |t.s.tasks|
  {
    var task := t.s.tasks[h];
    var stages := 2 * (bound * Left(task));
    if Terminal(task) then 0
    else if task.state.Ready? then
      stages - bound + (if OwnerFor(t.s, task.phase).Some? then Pending(t, task.phase, bound) else 1)
    else stages + Pending(t, task.phase, bound)
  }

  lemma LeftOfReady(s: Sched, h: nat)
    requires Structure(s) && h < |s.tasks| && s.tasks[h].state.Ready?
    ensures Left(s.tasks[h]) >= 1
    ensures Candidate(s, h) ==> Left(Launch(s, h).tasks[h]) == Left(s.tasks[h]) - 1
    ensures Candidate(s, h) ==> Launch(s, h).tasks[h].phase == s.tasks[h].phase && Blocked(Launch(s, h).tasks[h])
  {
    assert TaskOk(s, h);
  }

  /** Serving keeps the stages a task has left to dispatch, unless it fails. */
  lemma ServedLeftOf(s: Sched, ev: Events, h: nat)
    requires Structure(s) && h < |s.tasks| && !Terminal(Served(s, ev).tasks[h])
    ensures Left(Served(s, ev).tasks[h]) == Left(s.tasks[h])
  {
    var s1 := CountCall(s);
    CountersKeepStructure(s, s1);
    ServeDmaKeepsStructure(s1, ev.dma);
    ServeDmaLeftOf(s1, ev.dma, h);
    ServeAcceleratorLeftOf(ServeDma(s1, ev.dma), ev.accelerator, h);
  }

  lemma ServeDmaLeftOf(s: Sched, event: Option<CompletionStatus>, h: nat)
    requires Structure(s) && h < |s.tasks|
    ensures var t := s.tasks[h]; var t' := ServeDma(s, event).tasks[h];
      (Terminal(t) ==> t' == t) && (!Terminal(t') ==> Left(t') == Left(t))
  {
    assert TaskOk(s, h);
    if event.Some? && s.dmaOwner == Some(h) && !s.tasks[h].workload.kind.DmaCopy? {
      AcceptedByteCounts(s.tasks[h].workload);
    }
  }

  lemma ServeAcceleratorLeftOf(s: Sched, event: Option<CompletionStatus>, h: nat)
    requires Structure(s) && h < |s.tasks|
    ensures var t := s.tasks[h]; var t' := ServeAccelerator(s, event).tasks[h];
      (Terminal(t) ==> t' == t) && (!Terminal(t') ==> Left(t') == Left(t))
  {
    assert TaskOk(s, h);
  }

  /** A blocked task owns the resource of its phase, and is ready or terminal once its completion is served. */
  lemma BlockedOwns(s: Sched, h: nat)
    requires Structure(s) && h < |s.tasks| && Blocked(s.tasks[h])
    ensures OwnerFor(s, s.tasks[h].phase) == Some(h)
  {
    assert TaskOk(s, h);
  }

  lemma BlockedWakes(s: Sched, ev: Events, h: nat)
    requires Structure(s) && h < |s.tasks| && Blocked(s.tasks[h])
    requires CompletionFor(ev, s.tasks[h].phase).Some?
    ensures Served(s, ev).tasks[h].state.Ready? || Terminal(Served(s, ev).tasks[h])
  {
    BlockedOwns(s, h);
    ServedKeepsStructure(s, ev);
    ServedOwners(s, ev);
    assert TaskOk(s, h) && TaskOk(Served(s, ev), h);
    ServedPhaseOf(s, ev, h);
  }

  /** A task still blocked after serving is the same task. */
  lemma ServedPhaseOf(s: Sched, ev: Events, h: nat)
    requires Structure(s) && h < |s.tasks| && Blocked(s.tasks[h])
    ensures Blocked(Served(s, ev).tasks[h]) ==> Served(s, ev).tasks[h] == s.tasks[h]
  {
    assert TaskOk(s, h);
    var s1 := CountCall(s);
    CountersKeepStructure(s, s1);
    ServeDmaKeepsStructure(s1, ev.dma);
    var s2 := ServeDma(s1, ev.dma);
    assert TaskOk(s2, h);
    if !Blocked(s2.tasks[h]) {
      ServeAcceleratorFrame(s2, ev.accelerator, h);
    }
  }

  /** Dispatched in this call, with a fresh operation. */
  lemma DispatchedNow(t: Timed, t': Timed, phase: TaskPhase, left: nat, h: nat, bound: nat)
    requires bound >= 1 && left >= 1 && h < |t'.s.tasks| && Blocked(t'.s.tasks[h]) && t'.s.tasks[h].phase == phase
    requires Left(t'.s.tasks[h]) == left - 1 && OwnerFor(t'.s, phase).Some? && AgeFor(t', phase) == 0
    ensures Urgency(t', h, bound) <= 2 * (bound * left) - bound
  {
    MulPredecessor(bound, left);
  }

  /** A ready task after serving: dispatched in this call, with a fresh operation, or waiting. */
  lemma ReadyAfterServing(t: Timed, ev: Events, h: nat, bound: nat)
    requires Structure(t.s) && bound >= 1 && Young(t, bound) && PromptCall(t, ev, bound) && Top(t.s, h)
    requires Served(t.s, ev).tasks[h].state.Ready?
    ensures Top(TimedCall(t, ev).s, h)
    ensures var task := Served(t.s, ev).tasks[h];
      var waits := OwnerFor(t.s, task.phase).Some? && CompletionFor(ev, task.phase).None?;
      Urgency(TimedCall(t, ev), h, bound)
        <= 2 * (bound * Left(task)) - bound + (if waits then Pending(t, task.phase, bound) - 1 else 0)
  {
    var s1 := Served(t.s, ev);
    var task := s1.tasks[h];
    ServedKeepsStructure(t.s, ev);
    PriorityStep(t.s, ev, h);
    LeftOfReady(s1, h);
    if OwnerFor(s1, task.phase).None? {
      DispatchedNow(t, TimedCall(t, ev), task.phase, Left(task), h, bound);
    }
  }

  /** Each call either ends the task's life or brings it at least one call closer to its end. */
  lemma CallLowersUrgency(t: Timed, ev: Events, h: nat, bound: nat)
    requires Structure(t.s) && bound >= 1 && Young(t, bound) && PromptCall(t, ev, bound) && Top(t.s, h)
    ensures var t' := TimedCall(t, ev);
      && Young(t', bound) && h < |t'.s.tasks|
      && (Terminal(t'.s.tasks[h]) || (Top(t'.s, h) && Urgency(t', h, bound) <= Urgency(t, h, bound) - 1))
  {
    CallLowersWeight(t, ev, bound);
    var s1 := Served(t.s, ev);
    ServedKeepsStructure(t.s, ev);
    assert TaskOk(t.s, h) && TaskOk(s1, h);
    if Terminal(s1.tasks[h]) {
      ProceedFrame(s1, h);
    } else {
      ServedLeftOf(t.s, ev, h);
      if t.s.tasks[h].state.Ready? {
        ServedReadyFrame(t.s, ev, h);
        ReadyAfterServing(t, ev, h, bound);
      } else {
        BlockedOwns(t.s, h);
        BlockedLowersUrgency(t, ev, h, bound);
      }
    }
  }

  lemma BlockedLowersUrgency(t: Timed, ev: Events, h: nat, bound: nat)
    requires Structure(t.s) && bound >= 1 && Young(t, bound) && PromptCall(t, ev, bound) && Top(t.s, h)
    requires Blocked(t.s.tasks[h]) && OwnerFor(t.s, t.s.tasks[h].phase) == Some(h)
    requires !Terminal(Served(t.s, ev).tasks[h]) && Left(Served(t.s, ev).tasks[h]) == Left(t.s.tasks[h])
    ensures var t' := TimedCall(t, ev); Top(t'.s, h) && Urgency(t', h, bound) <= Urgency(t, h, bound) - 1
  {
    var phase := t.s.tasks[h].phase;
    if CompletionFor(ev, phase).Some? {
      BlockedWakes(t.s, ev, h);
      ReadyAfterServing(t, ev, h, bound);
    } else {
      NoEventKeepsOwner(t.s, ev, if phase.Execute? then AcceleratorEngine else DmaEngine);
      TopSurvivesCall(t.s, ev, h);
    }
  }

  lemma UrgencyIsPositive(t: Timed, h: nat, bound: nat)
    requires Structure(t.s) && bound >= 1 && Young(t, bound) && h < |t.s.tasks| && !Terminal(t.s.tasks[h])
    ensures Urgency(t, h, bound) >= 1
  {
    assert TaskOk(t.s, h);
    var left := Left(t.s.tasks[h]);
    MulMonotone(bound, 0, left);
    if t.s.tasks[h].state.Ready? {
      LeftOfReady(t.s, h);
      MulMonotone(bound, 1, left);
    }
  }

  /** The bound: when every operation is observed complete within `bound` calls, a task of strictly highest
      priority is terminal within `Urgency` calls, whatever else is queued. */
  lemma {:induction false} UrgencyBound(t: Timed, evs: seq<Events>, h: nat, bound: nat)
    requires Structure(t.s) && bound >= 1 && Young(t, bound) && Prompt(t, evs, bound)
    requires h < |t.s.tasks| && (Terminal(t.s.tasks[h]) || Top(t.s, h))
    requires |evs| >= Urgency(t, h, bound)
    ensures var s' := Exec(t.s, Calls(evs)); h < |s'.tasks| && Terminal(s'.tasks[h])
    decreases |evs|
  {
    if Terminal(t.s.tasks[h]) {
      TerminalIsForever(t.s, Calls(evs), h);
    } else {
      UrgencyIsPositive(t, h, bound);
      CallLowersUrgency(t, evs[0], h, bound);
      StepKeepsStructure(t.s, Call(evs[0]));
      OneStepLess(t.s, evs);
      UrgencyBound(TimedCall(t, evs[0]), evs[1..], h, bound);
    }
  }

  /** At most one foreign and one own operation per stage: a ready top-priority task is terminal after
      2 * bound calls for every operation it has left; a blocked one has its own operation to finish too. */
  lemma UrgencyInStages(t: Timed, h: nat, bound: nat)
    requires Structure(t.s) && bound >= 1 && Young(t, bound) && h < |t.s.tasks| && !Terminal(t.s.tasks[h])
    ensures Urgency(t, h, bound)
         <= 2 * bound * Left(t.s.tasks[h]) + (if t.s.tasks[h].state.Ready? then 0 else bound)
  {
    assert TaskOk(t.s, h);
    assert 2 * bound * Left(t.s.tasks[h]) == 2 * (bound * Left(t.s.tasks[h]));
  }

  // ---- Next to the device, with further submissions ----

  /** The number of scheduler calls among the activities. */
  function CallCount(activities: seq<Activity>): nat {
    if |activities| == 0 then 0
    else (if activities[0].Calling? then 1 else 0) + CallCount(activities[1..])
  }

  /** Everything submitted has lower priority. */
  predicate SubmitsBelow(activities: seq<Activity>, priority: U32) {
    forall k :: 0 <= k < |activities| && activities[k].Submitting? ==> activities[k].request.priority < priority
  }

  lemma TopSurvivesSubmission(t: Timed, r: Request, h: nat, bound: nat)
    requires Structure(t.s) && Top(t.s, h) && r.priority < t.s.tasks[h].priority && Young(t, bound)
    ensures var t' := t.(s := Submit(t.s, r).0);
      && Top(t'.s, h) && t'.s.tasks[h] == t.s.tasks[h] && Young(t', bound)
      && Urgency(t', h, bound) == Urgency(t, h, bound)
  {
    var s' := Submit(t.s, r).0;
    assert forall j :: 0 <= j < |t.s.tasks| ==> s'.tasks[j] == t.s.tasks[j];
  }

  lemma TerminalInRun(env: Env, sys: System, activities: seq<Activity>, h: nat)
    requires Sound(sys.sched, sys.device) && h < |sys.sched.tasks| && Terminal(sys.sched.tasks[h])
    ensures var s' := Run(env, sys, activities).sched; h < |s'.tasks| && Terminal(s'.tasks[h])
  {
    RunsAreExecutions(env, sys, activities);
    TerminalIsForever(sys.sched, Trace(env, sys, activities), h);
  }

  lemma CallKeepsPriority(s: Sched, ev: Events, h: nat)
    requires Structure(s) && h < |s.tasks|
    ensures StepCall(s, ev).tasks[h].priority == s.tasks[h].priority
  {
    StepKeepsIdentities(s, ev);
    assert Identities(StepCall(s, ev).tasks)[h] == Identities(s.tasks)[h];
  }

  /** What every call of a fair run starts from. */
  ghost predicate Timely(env: Env, bound: nat, t: Timed, d: Device) {
    && Sound(t.s, d) && Young(t, bound)
    && Aged(env, DmaEngine, t.dmaAge, t.s, d) && Aged(env, AcceleratorEngine, t.accelAge, t.s, d)
  }

  lemma UrgentCall(env: Env, bound: nat, t: Timed, d: Device, h: nat)
    requires Fair(env, bound) && bound >= 1 && Timely(env, bound, t, d) && Top(t.s, h)
    ensures var t' := TimedCall(t, CallEvents(env, d)); var o := RunOnce(env, System(t.s, d)).system;
      && o.sched == t'.s && Timely(env, bound, t', o.device) && h < |t'.s.tasks|
      && t'.s.tasks[h].priority == t.s.tasks[h].priority
      && (Terminal(t'.s.tasks[h]) || (Top(t'.s, h) && Urgency(t', h, bound) <= Urgency(t, h, bound) - 1))
  {
    FairCallIsPrompt(env, bound, t, d);
    RunOnceExact(env, t.s, d);
    CallAges(env, t.s, d, DmaEngine, t.dmaAge);
    CallAges(env, t.s, d, AcceleratorEngine, t.accelAge);
    CallLowersUrgency(t, CallEvents(env, d), h, bound);
    CallKeepsPriority(t.s, CallEvents(env, d), h);
  }

  lemma {:induction false} UrgentRun(env: Env, bound: nat, t: Timed, d: Device, activities: seq<Activity>, h: nat)
    requires Fair(env, bound) && bound >= 1 && Timely(env, bound, t, d) && Top(t.s, h)
    requires SubmitsBelow(activities, t.s.tasks[h].priority) && CallCount(activities) >= Urgency(t, h, bound)
    ensures var s' := Run(env, System(t.s, d), activities).sched; h < |s'.tasks| && Terminal(s'.tasks[h])
    decreases |activities|
  {
    UrgencyIsPositive(t, h, bound);
    var sys, rest := System(t.s, d), activities[1..];
    match activities[0]
    case Submitting(r) =>
      ActIsStep(env, sys, activities[0]);
      TopSurvivesSubmission(t, r, h, bound);
      UrgentRun(env, bound, t.(s := Submit(t.s, r).0), d, rest, h);
    case Calling =>
      var t', o := TimedCall(t, CallEvents(env, d)), RunOnce(env, sys).system;
      UrgentCall(env, bound, t, d, h);
      if Terminal(t'.s.tasks[h]) {
        TerminalInRun(env, o, rest, h);
      } else {
        UrgentRun(env, bound, t', o.device, rest, h);
      }
  }

  /** Next to the device: from any linked state, with anything in flight and any number of tasks queued, and
      whatever of lower priority is submitted meanwhile, a task of strictly highest priority is terminal
      after 2 * bound calls per operation left, plus `bound` if it is blocked, when the environment never
      waits `bound` accesses in a row. */
  lemma TopTaskFinishes(env: Env, bound: nat, s: Sched, d: Device, h: nat, activities: seq<Activity>)
    requires Sound(s, d) && Fair(env, bound) && bound >= 1 && Top(s, h)
    requires SubmitsBelow(activities, s.tasks[h].priority)
    requires CallCount(activities) >= 2 * bound * Left(s.tasks[h]) + (if s.tasks[h].state.Ready? then 0 else bound)
    ensures var s' := Run(env, System(s, d), activities).sched; h < |s'.tasks| && Terminal(s'.tasks[h])
  {
    var t := Timed(s, 0, 0);
    UrgencyInStages(t, h, bound);
    UrgentRun(env, bound, t, d, activities, h);
  }
}

/** Priority guarantees of the selection. */
module Priority {
  import opened Words
  import opened DeviceModel
  import opened Tasks
  import opened SchedulerSpec
  import opened SchedulerSteps
  import opened Accounting

  /** Task `i` goes before task `j`: higher priority, or equal priority and submitted earlier. */
  predicate Outranks(tasks: seq<Task>, i: nat, j: nat)
    requires i < |tasks| && j < |tasks|
  {
    tasks[i].priority > tasks[j].priority || (tasks[i].priority == tasks[j].priority && i < j)
  }

  lemma {:induction false} SelectAmongBest(s: Sched, n: nat, j: nat)
    requires n <= |s.tasks| && j < n && Candidate(s, j)
    ensures var best := SelectAmong(s, n); best.Some? && (j == best.value || Outranks(s.tasks, best.value, j))
    decreases n
  {
    if j != n - 1 {
      SelectAmongBest(s, n - 1, j);
    } else if SelectAmong(s, n - 1).Some? {
      assert Candidate(s, SelectAmong(s, n - 1).value);
    }
  }

  /** The scan selects task `i` exactly when `i` can run and outranks every other task that can. */
  lemma SelectionIsBest(s: Sched, i: nat)
    requires i < |s.tasks|
    ensures SelectReady(s) == Some(i) <==>
      Candidate(s, i) && forall j :: 0 <= j < |s.tasks| && j != i && Candidate(s, j) ==> Outranks(s.tasks, i, j)
  {
    forall j | 0 <= j < |s.tasks| && Candidate(s, j)
      ensures SelectReady(s).Some? && (j == SelectReady(s).value || Outranks(s.tasks, SelectReady(s).value, j))
    {
      SelectAmongBest(s, |s.tasks|, j);
    }
  }

  // ---- Bounded priority inversion ----

  /** Task `h` is strictly more urgent than every other task still to finish. */
  predicate Top(s: Sched, h: nat) {
    && h < |s.tasks| && !Terminal(s.tasks[h])
    && forall j :: 0 <= j < |s.tasks| && j != h && !Terminal(s.tasks[j]) ==> s.tasks[j].priority < s.tasks[h].priority
  }

  function OwnerFor(s: Sched, phase: TaskPhase): Option<nat> {
    if phase.Execute? then s.accelOwner else s.dmaOwner
  }

  function CompletionFor(ev: Events, phase: TaskPhase): Option<CompletionStatus> {
    if phase.Execute? then ev.accelerator else ev.dma
  }

  lemma ServeDmaOwners(s: Sched, event: Option<CompletionStatus>)
    requires Structure(s)
    ensures ServeDma(s, event).dmaOwner == if event.Some? then None else s.dmaOwner
    ensures ServeDma(s, event).accelOwner == s.accelOwner
  {
    ServeDmaKeepsStructure(s, event);
    if event.Some? && s.dmaOwner.Some? {
      assert TaskOk(s, s.dmaOwner.value);
    }
  }

  lemma ServeAcceleratorOwners(s: Sched, event: Option<CompletionStatus>)
    requires Structure(s)
    ensures ServeAccelerator(s, event).accelOwner == if event.Some? then None else s.accelOwner
    ensures ServeAccelerator(s, event).dmaOwner == s.dmaOwner
  {
    ServeAcceleratorKeepsStructure(s, event);
    if event.Some? && s.accelOwner.Some? {
      assert TaskOk(s, s.accelOwner.value);
    }
  }

  /** A completion frees its resource; without one the owner stays. */
  lemma ServedOwners(s: Sched, ev: Events)
    requires Structure(s)
    ensures Served(s, ev).dmaOwner == if ev.dma.Some? then None else s.dmaOwner
    ensures Served(s, ev).accelOwner == if ev.accelerator.Some? then None else s.accelOwner
  {
    var s1 := CountCall(s);
    CountersKeepStructure(s, s1);
    ServeDmaOwners(s1, ev.dma);
    ServeDmaKeepsStructure(s1, ev.dma);
    ServeAcceleratorOwners(ServeDma(s1, ev.dma), ev.accelerator);
  }

  lemma ServedReadyFrame(s: Sched, ev: Events, h: nat)
    requires Structure(s) && h < |s.tasks| && s.tasks[h].state.Ready?
    ensures h < |Served(s, ev).tasks| && Served(s, ev).tasks[h] == s.tasks[h]
  {
    var s1 := CountCall(s);
    CountersKeepStructure(s, s1);
    ServeDmaFrame(s1, ev.dma, h);
    ServeDmaKeepsStructure(s1, ev.dma);
    ServeAcceleratorFrame(ServeDma(s1, ev.dma), ev.accelerator, h);
  }

  /** Serving completions never changes a priority and never revives a terminal task. */
  lemma ServedPriorities(s: Sched, ev: Events, j: nat)
    requires Structure(s) && j < |s.tasks|
    ensures |Served(s, ev).tasks| == |s.tasks|
    ensures Served(s, ev).tasks[j].priority == s.tasks[j].priority
    ensures Terminal(s.tasks[j]) ==> Terminal(Served(s, ev).tasks[j])
  {
    var s1 := CountCall(s);
    CountersKeepStructure(s, s1);
    ServeDmaPriorities(s1, ev.dma, j);
    ServeDmaKeepsStructure(s1, ev.dma);
    ServeAcceleratorPriorities(ServeDma(s1, ev.dma), ev.accelerator, j);
  }

  lemma ServeDmaPriorities(s: Sched, event: Option<CompletionStatus>, j: nat)
    requires Structure(s) && j < |s.tasks|
    ensures var s' := ServeDma(s, event);
      |s'.tasks| == |s.tasks| && s'.tasks[j].priority == s.tasks[j].priority
      && (Terminal(s.tasks[j]) ==> Terminal(s'.tasks[j]))
  {
    assert TaskOk(s, j);
  }

  lemma ServeAcceleratorPriorities(s: Sched, event: Option<CompletionStatus>, j: nat)
    requires Structure(s) && j < |s.tasks|
    ensures var s' := ServeAccelerator(s, event);
      |s'.tasks| == |s.tasks| && s'.tasks[j].priority == s.tasks[j].priority
      && (Terminal(s.tasks[j]) ==> Terminal(s'.tasks[j]))
  {
    assert TaskOk(s, j);
  }

  /** A top-priority task stays top until it is terminal itself. */
  lemma TopSurvivesServing(s: Sched, ev: Events, h: nat)
    requires Structure(s) && Top(s, h) && !Terminal(Served(s, ev).tasks[h])
    ensures Top(Served(s, ev), h)
  {
    ServedPriorities(s, ev, h);
    var s1 := Served(s, ev);
    forall j | 0 <= j < |s1.tasks| && j != h && !Terminal(s1.tasks[j])
      ensures s1.tasks[j].priority < s1.tasks[h].priority
    {
      ServedPriorities(s, ev, j);
    }
  }

  lemma TopSurvivesProceeding(s: Sched, h: nat)
    requires Structure(s) && Top(s, h)
    ensures Top(Proceed(s), h)
  {
    assert TaskOk(s, h);
    match SelectReady(s)
    case None =>
    case Some(i) => LaunchKeepsStructure(s, i);
  }

  lemma TopSurvivesCall(s: Sched, ev: Events, h: nat)
    requires Structure(s) && Top(s, h) && !Terminal(Served(s, ev).tasks[h])
    ensures Top(StepCall(s, ev), h)
  {
    ServedKeepsStructure(s, ev);
    TopSurvivesServing(s, ev, h);
    TopSurvivesProceeding(Served(s, ev), h);
  }

  /** A top-priority ready task with a free resource is the one selected. */
  lemma TopIsSelected(s: Sched, h: nat)
    requires Structure(s) && Top(s, h) && s.tasks[h].state.Ready? && OwnerFor(s, s.tasks[h].phase).None?
    ensures SelectReady(s) == Some(h)
  {
    assert TaskOk(s, h);
    SelectionIsBest(s, h);
  }

  lemma PassedOver(s: Sched, h: nat)
    requires Structure(s) && Top(s, h) && s.tasks[h].state.Ready? && OwnerFor(s, s.tasks[h].phase).Some?
    ensures var phase := s.tasks[h].phase; var s' := Proceed(s);
      h < |s'.tasks| && s'.tasks[h] == s.tasks[h] && OwnerFor(s', phase) == OwnerFor(s, phase)
  {
    assert TaskOk(s, h);
    match SelectReady(s)
    case None =>
    case Some(i) =>
      assert i != h;
      assert TaskOk(s, i);
  }

  /** One call, seen by a top-priority task that is ready once the call has served completions, whether it
      was ready before or is woken by this very call. If its resource is free by then, the task is
      dispatched in this call; otherwise the resource keeps the owner it had, nothing is dispatched on
      it, and the task stays as it is. Either way it stays the top task. */
  lemma PriorityStep(s: Sched, ev: Events, h: nat)
    requires Structure(s) && Top(s, h) && Served(s, ev).tasks[h].state.Ready?
    ensures var s1 := Served(s, ev); var phase := s1.tasks[h].phase; var s' := StepCall(s, ev);
      && Top(s', h)
      && (OwnerFor(s1, phase).None? <==> OwnerFor(s, phase).None? || CompletionFor(ev, phase).Some?)
      && if OwnerFor(s1, phase).None?
         then s' == Launch(s1, h) && s'.dispatchOrder == s.dispatchOrder + [h] && OwnerFor(s', phase) == Some(h)
         else s'.tasks[h] == s1.tasks[h] && OwnerFor(s', phase) == OwnerFor(s, phase)
  {
    var s1 := Served(s, ev);
    ServedKeepsStructure(s, ev);
    ServedOwners(s, ev);
    TopSurvivesCall(s, ev, h);
    TopSurvivesServing(s, ev, h);
    ServeKeepsCounts(s, ev);
    assert TaskOk(s1, h);
    if OwnerFor(s1, s1.tasks[h].phase).None? {
      TopIsSelected(s1, h);
    } else {
      PassedOver(s1, h);
    }
  }

  function Calls(evs: seq<Events>): seq<Action> {
    seq(|evs|, i requires 0 <= i < |evs| => Call(evs[i]))
  }

  lemma CallsTail(evs: seq<Events>)
    requires |evs| > 0
    ensures Calls(evs)[1..] == Calls(evs[1..]) && Calls(evs)[0] == Call(evs[0])
  {
  }

  /** One wait of a top-priority task is for one operation: over any calls that bring no completion of the
      operation that owns its resource nothing is dispatched there, and the call that brings it
      dispatches the task. */
  lemma {:induction false} BoundedInversion(s: Sched, evs: seq<Events>, last: Events, h: nat)
    requires Structure(s) && Top(s, h) && s.tasks[h].state.Ready?
    requires OwnerFor(s, s.tasks[h].phase).Some?
    requires forall k :: 0 <= k < |evs| ==> CompletionFor(evs[k], s.tasks[h].phase).None?
    requires CompletionFor(last, s.tasks[h].phase).Some?
    ensures var waited := Exec(s, Calls(evs)); var phase := s.tasks[h].phase;
      && h < |waited.tasks| && waited.tasks[h] == s.tasks[h] && OwnerFor(waited, phase) == OwnerFor(s, phase)
      && StepCall(waited, last).dispatchOrder == waited.dispatchOrder + [h]
      && OwnerFor(StepCall(waited, last), phase) == Some(h)
    decreases |evs|
  {
    if |evs| == 0 {
      ServedReadyFrame(s, last, h);
      PriorityStep(s, last, h);
    } else {
      CallsTail(evs);
      ServedReadyFrame(s, evs[0], h);
      PriorityStep(s, evs[0], h);
      StepKeepsStructure(s, Call(evs[0]));
      BoundedInversion(StepCall(s, evs[0]), evs[1..], last, h);
    }
  }
}

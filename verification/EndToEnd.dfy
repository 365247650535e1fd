/** End-to-end refinement: what runs leave in memory, from boot and for single tasks. */
module EndToEnd {
  import opened Words
  import opened Soc
  import opened DeviceModel
  import opened Tasks
  import opened Layout
  import opened SchedulerSpec
  import opened Interference
  import opened Runs
  import opened Recording
  import opened MemoryModel
  import opened Refinement
  import opened Pipeline
  import opened AtomicExecution
  import opened Serializability

  /** All tasks since boot. */
  const EVERYTHING := Scope(0, {})

  // ---- From boot ----

  /** At any moment of any careful run from boot, failed tasks or not: every byte outside the scratchpad and
      outside the destinations of tasks that have started their copy or store and are not DONE is what
      executing the DONE workloads atomically, one after the other in submission order, leaves there.
      `base` is memory before the events before boot. */
  lemma RunsRefineAtomicExecution(env: Env, d: Device, interval: U32, activities: seq<Activity>, base: Memory, a: nat)
    requires Idle(d) && Careful(env, EVERYTHING, Started(env, d, interval), activities)
    requires var end := Run(env, Started(env, d, interval), activities);
      !Inhabits(a, SCRATCHPAD) && !Unsettled(EVERYTHING, end.sched.tasks, a)
    ensures var end := Run(env, Started(env, d, interval), activities);
      Replay(base, end.device.events)(a)
        == Atomically(WorkloadsOf(end.sched.tasks), Finishers(EVERYTHING, end.sched.tasks), Replay(base, d.events))(a)
  {
    BootLinks(env, d, interval);
    RunsAreSerializable(env, EVERYTHING, Started(env, d, interval), activities, base, a);
  }

  /** When every task is DONE no address is unsettled and every workload is executed. */
  lemma AllFinish(tasks: seq<Task>, a: nat)
    requires forall i :: 0 <= i < |tasks| ==> tasks[i].state.Done?
    ensures !Unsettled(EVERYTHING, tasks, a) && Finishers(EVERYTHING, tasks) == Everyone(|tasks|)
  {
  }

  /** Calls are always careful. */
  lemma {:induction false} CarefulCalls(env: Env, scope: Scope, sys: System, activities: seq<Activity>, n: nat)
    requires Indexed(sys.sched) && Careful(env, scope, sys, activities)
    ensures Careful(env, scope, sys, activities + Only(n))
    decreases |activities| + n
  {
    var all := activities + Only(n);
    if |activities| != 0 {
      assert all[1..] == activities[1..] + Only(n);
      CarefulCalls(env, scope, Act(env, sys, activities[0]), activities[1..], n);
    } else if n != 0 {
      assert all[1..] == [] + Only(n - 1);
      CarefulCalls(env, scope, Act(env, sys, Calling), [], n - 1);
    }
  }

  // ---- Isolated workloads ----

  lemma IsolatedIsOrdered(tasks: seq<Task>, ws: seq<Workload>)
    requires Isolated(ws) && WorkloadsOf(tasks) <= ws && forall i :: 0 <= i < |tasks| ==> tasks[i].id == i
    ensures Ordered(EVERYTHING, tasks)
  {
    forall i: nat | i < |tasks|
      ensures tasks[i].workload == ws[i] && Avoids(ws[i], SCRATCHPAD)
    {
      assert WorkloadsOf(tasks)[i] == ws[i];
    }
    forall i: nat, j: nat | i < |tasks| && j < |tasks| && i != j
      ensures Clear(tasks[i], ResultSpan(tasks[j].workload))
    {
      SlotAddresses(i);
      assert Avoids(ws[i], ResultSpan(ws[j])) && Avoids(ws[j], SCRATCHPAD);
    }
  }

  lemma SameWorkloads(tasks: seq<Task>, tasks': seq<Task>)
    requires Identities(tasks') == Identities(tasks)
    ensures WorkloadsOf(tasks') == WorkloadsOf(tasks)
  {
    forall i | 0 <= i < |tasks|
      ensures |tasks'| == |tasks| && tasks'[i].workload == tasks[i].workload
    {
      assert Identities(tasks')[i] == Identities(tasks)[i];
    }
  }

  lemma ActGrows(env: Env, sys: System, a: Activity)
    requires Sound(sys.sched, sys.device)
    ensures WorkloadsOf(sys.sched.tasks) <= WorkloadsOf(Act(env, sys, a).sched.tasks)
  {
    match a
    case Submitting(_) =>
    case Calling =>
      CallKeepsIdentities(env, sys.sched, sys.device);
      SameWorkloads(sys.sched.tasks, Act(env, sys, a).sched.tasks);
  }

  /** Workloads are only ever appended. */
  lemma {:induction false} WorkloadsGrow(env: Env, sys: System, activities: seq<Activity>)
    requires Sound(sys.sched, sys.device)
    ensures WorkloadsOf(sys.sched.tasks) <= WorkloadsOf(Run(env, sys, activities).sched.tasks)
    decreases |activities|
  {
    if |activities| != 0 {
      ActIsStep(env, sys, activities[0]);
      ActGrows(env, sys, activities[0]);
      WorkloadsGrow(env, Act(env, sys, activities[0]), activities[1..]);
    }
  }

  /** A run whose workloads are isolated, all of them from each other, is careful. */
  lemma {:induction false} IsolatedIsCareful(env: Env, sys: System, activities: seq<Activity>)
    requires Sound(sys.sched, sys.device) && Isolated(WorkloadsOf(Run(env, sys, activities).sched.tasks))
    ensures Careful(env, EVERYTHING, sys, activities)
    decreases |activities|
  {
    if |activities| != 0 {
      var next := Act(env, sys, activities[0]);
      ActIsStep(env, sys, activities[0]);
      WorkloadsGrow(env, next, activities[1..]);
      IsolatedIsOrdered(next.sched.tasks, WorkloadsOf(Run(env, sys, activities).sched.tasks));
      IsolatedIsCareful(env, next, activities[1..]);
    }
  }

  lemma IsolatedIsSettled(ws: seq<Workload>, tasks: seq<Task>, i: nat, a: nat)
    requires Isolated(ws) && ws == WorkloadsOf(tasks) && i < |ws| && !Exposed(tasks[i])
    requires Inhabits(a, ResultSpan(ws[i]))
    ensures !Inhabits(a, SCRATCHPAD) && !Unsettled(EVERYTHING, tasks, a)
  {
    assert Avoids(ws[i], SCRATCHPAD);
    forall j: nat | j < |ws| && j != i
      ensures !Inhabits(a, ResultSpan(ws[j]))
    {
      DestinationsApart(ws, j, i, a);
    }
  }

  /** What serializability means for isolated workloads. */
  lemma IsolatedResults(ws: seq<Workload>, tasks: seq<Task>, m0: Memory, m: Memory, i: nat)
    requires Isolated(ws) && ws == WorkloadsOf(tasks) && i < |ws| && !Exposed(tasks[i])
    requires forall a: nat :: !Inhabits(a, SCRATCHPAD) && !Unsettled(EVERYTHING, tasks, a) ==>
      m(a) == Atomically(ws, Finishers(EVERYTHING, tasks), m0)(a)
    ensures if tasks[i].state.Done? then Written(ws[i], m0, m) else Unwritten(ws[i], m0, m)
  {
    var chosen := Finishers(EVERYTHING, tasks);
    var atomic := Atomically(ws, chosen, m0);
    AtomicResults(ws, chosen, m0);
    var span := ResultSpan(ws[i]);
    forall a: nat | span.start <= a < span.start + span.size
      ensures m(a) == atomic(a)
      ensures i !in chosen ==> atomic(a) == m0(a)
    {
      IsolatedIsSettled(ws, tasks, i, a);
      if i !in chosen {
        OriginalElsewhere(ws, chosen, i, m0, atomic, a);
      }
    }
    SameRange(atomic, m, span.start, span.size);
    if i !in chosen {
      SameRange(m0, m, span.start, span.size);
    }
  }

  lemma AllIsolatedResults(ws: seq<Workload>, tasks: seq<Task>, m0: Memory, m: Memory)
    requires Isolated(ws) && ws == WorkloadsOf(tasks)
    requires forall a: nat :: !Inhabits(a, SCRATCHPAD) && !Unsettled(EVERYTHING, tasks, a) ==>
      m(a) == Atomically(ws, Finishers(EVERYTHING, tasks), m0)(a)
    ensures ForeignKept(ws, m0, m)
    ensures forall i :: 0 <= i < |ws| && tasks[i].state.Done? ==> Written(ws[i], m0, m)
    ensures forall i :: 0 <= i < |ws| && !tasks[i].state.Done? && !Exposed(tasks[i]) ==> Unwritten(ws[i], m0, m)
  {
    var chosen := Finishers(EVERYTHING, tasks);
    AtomicResults(ws, chosen, m0);
    forall a: nat | Foreign(ws, a)
      ensures m(a) == m0(a)
    {
      assert !Unsettled(EVERYTHING, tasks, a);
      assert Outside(ws, chosen, |ws|, a);
    }
    forall i: nat | i < |ws| && !Exposed(tasks[i])
      ensures if tasks[i].state.Done? then Written(ws[i], m0, m) else Unwritten(ws[i], m0, m)
    {
      IsolatedResults(ws, tasks, m0, m, i);
    }
  }

  lemma IsolatedRunsAgree(env: Env, d: Device, interval: U32, activities: seq<Activity>, base: Memory, a: nat)
    requires Idle(d) && Isolated(WorkloadsOf(Run(env, Started(env, d, interval), activities).sched.tasks))
    ensures var end := Run(env, Started(env, d, interval), activities);
      !Inhabits(a, SCRATCHPAD) && !Unsettled(EVERYTHING, end.sched.tasks, a) ==>
        Replay(base, end.device.events)(a)
          == Atomically(WorkloadsOf(end.sched.tasks), Finishers(EVERYTHING, end.sched.tasks),
                        Replay(base, d.events))(a)
  {
    BootLinks(env, d, interval);
    var start := Started(env, d, interval);
    IsolatedIsCareful(env, start, activities);
    var tasks := Run(env, start, activities).sched.tasks;
    if !Inhabits(a, SCRATCHPAD) && !Unsettled(EVERYTHING, tasks, a) {
      RunsRefineAtomicExecution(env, d, interval, activities, base, a);
    }
  }

  /** Pipelined refinement: over any run from boot, under any interference, if no destination meets
      another task's ranges or the scratchpad, then each DONE task's destination holds exactly the
      reference result of the original source bytes, the destination of a task that has not started its
      copy or store is unchanged, and so is every byte outside the scratchpad and the destinations. */
  lemma PipelinedRefinement(env: Env, d: Device, interval: U32, activities: seq<Activity>, base: Memory)
    requires Idle(d)
    requires Isolated(WorkloadsOf(Run(env, Started(env, d, interval), activities).sched.tasks))
    ensures var end := Run(env, Started(env, d, interval), activities);
      var ws := WorkloadsOf(end.sched.tasks);
      var m0 := Replay(base, d.events);
      var m := Replay(base, end.device.events);
      && ForeignKept(ws, m0, m)
      && (forall i :: 0 <= i < |ws| && end.sched.tasks[i].state.Done? ==> Written(ws[i], m0, m))
      && (forall i :: 0 <= i < |ws| && !end.sched.tasks[i].state.Done? && !Exposed(end.sched.tasks[i]) ==>
            Unwritten(ws[i], m0, m))
  {
    var end := Run(env, Started(env, d, interval), activities);
    forall a: nat
      ensures !Inhabits(a, SCRATCHPAD) && !Unsettled(EVERYTHING, end.sched.tasks, a) ==>
        Replay(base, end.device.events)(a)
          == Atomically(WorkloadsOf(end.sched.tasks), Finishers(EVERYTHING, end.sched.tasks),
                        Replay(base, d.events))(a)
    {
      IsolatedRunsAgree(env, d, interval, activities, base, a);
    }
    AllIsolatedResults(WorkloadsOf(end.sched.tasks), end.sched.tasks, Replay(base, d.events),
                       Replay(base, end.device.events));
  }

  // ---- A single task ----

  /** The scope of the next task alone: the unfinished tasks and all later ones are strangers. */
  function Alone(tasks: seq<Task>): Scope {
    Scope(|tasks|, set i: nat | i < |tasks| + TASK_SLOT_COUNT && i != |tasks| && (i < |tasks| ==> !Terminal(tasks[i])))
  }

  lemma NothingBefore(tasks: seq<Task>)
    ensures Ordered(Alone(tasks), tasks)
  {
  }

  /** The address is in the destination of an earlier task that was unfinished when task `h` was submitted,
      or of a later task. */
  predicate Contested(scope: Scope, tasks: seq<Task>, a: nat) {
    exists u: nat :: u < |tasks| && u in scope.strangers && Inhabits(a, ResultSpan(tasks[u].workload))
  }

  lemma OnlyOne(ws: seq<Workload>, h: nat, m0: Memory)
    requires h < |ws| && Accepted(ws[h])
    ensures Replaced(ws[h], m0, m0, Atomically(ws, {h}, m0))
  {
    NothingChosen(ws, h, m0);
    NothingChosen(ws, |ws|, m0);
    ChoosingOneMore(ws, {}, h, |ws|, m0);
    assert {} + {h} == {h};
  }

  lemma AloneIsSettled(before: seq<Task>, tasks: seq<Task>, a: nat)
    requires |before| < |tasks| <= TASK_SLOT_COUNT && tasks[|before|].state.Done?
    requires !Contested(Alone(before), tasks, a)
    ensures !Unsettled(Alone(before), tasks, a) && Finishers(Alone(before), tasks) == {|before|}
  {
  }

  /** Task `h` is DONE, and the address is in its destination and in no other one. */
  predicate Delivers(before: seq<Task>, tasks: seq<Task>, a: nat) {
    var h := |before|;
    && h < |tasks| <= TASK_SLOT_COUNT && tasks[h].state.Done? && Accepted(tasks[h].workload)
    && Inhabits(a, ResultSpan(tasks[h].workload)) && !Inhabits(a, SCRATCHPAD) && !Contested(Alone(before), tasks, a)
  }

  lemma AloneRun(env: Env, sys: System, activities: seq<Activity>, end: System, base: Memory, a: nat)
    requires Sound(sys.sched, sys.device) && Careful(env, Alone(sys.sched.tasks), sys, activities)
    requires end == Run(env, sys, activities) && Delivers(sys.sched.tasks, end.sched.tasks, a)
    ensures Replay(base, end.device.events)(a)
         == Atomically(WorkloadsOf(end.sched.tasks), {|sys.sched.tasks|}, Replay(base, sys.device.events))(a)
  {
    NothingBefore(sys.sched.tasks);
    AloneIsSettled(sys.sched.tasks, end.sched.tasks, a);
    RunsAreSerializable(env, Alone(sys.sched.tasks), sys, activities, base, a);
  }

  /** The byte that the reference result of the sources in `m0` has for address `a` of the destination. */
  predicate ResultByte(w: Workload, m0: Memory, a: nat, x: Byte) {
    Accepted(w) && Inhabits(a, ResultSpan(w)) && x == Reference(w, m0)[a - w.destination]
  }

  lemma AloneResult(before: seq<Task>, tasks: seq<Task>, m0: Memory, a: nat, x: Byte)
    requires Delivers(before, tasks, a) && x == Atomically(WorkloadsOf(tasks), {|before|}, m0)(a)
    ensures ResultByte(tasks[|before|].workload, m0, a, x)
  {
    OnlyOne(WorkloadsOf(tasks), |before|, m0);
  }

  /** One task on its own, whatever the others do: as long as it is unfinished, no other destination meets
      its ranges or its slot. Then, once it is DONE, each byte of its destination that no other
      destination covers holds the reference result of its sources as they were when it was submitted. */
  lemma TaskRefines(env: Env, sys: System, activities: seq<Activity>, end: System, base: Memory, a: nat)
    requires Sound(sys.sched, sys.device) && Careful(env, Alone(sys.sched.tasks), sys, activities)
    requires end == Run(env, sys, activities) && Delivers(sys.sched.tasks, end.sched.tasks, a)
    ensures ResultByte(end.sched.tasks[|sys.sched.tasks|].workload, Replay(base, sys.device.events), a,
                       Replay(base, end.device.events)(a))
  {
    AloneRun(env, sys, activities, end, base, a);
    AloneResult(sys.sched.tasks, end.sched.tasks, Replay(base, sys.device.events), a,
                Replay(base, end.device.events)(a));
  }
}

/** Every operation the hardware retires belongs to one task: the retired operations of a run are an
    interleaving of the pipelines of its tasks, and a task fails exactly for a fault of its own. */
module Attribution {
  import opened Words
  import opened DeviceModel
  import opened Tasks
  import opened Layout
  import opened SchedulerSpec
  import opened SchedulerSteps
  import opened Interference
  import opened Runs
  import opened Ledger
  import opened Pipeline

  /** The phase in which a task runs its operation number `k`. */
  function PhaseAt(w: Workload, k: nat): TaskPhase {
    if w.kind.DmaCopy? then Copy
    else if k == 0 then LoadSource0
    else if HasSource1(w) && k == 1 then LoadSource1
    else if k + 2 == StageCount(w) then Execute
    else StoreOutput
  }

  lemma PhaseOfStage(w: Workload, p: TaskPhase)
    requires PhaseFits(w, p) && !p.Complete?
    ensures StageIndex(w, p) < StageCount(w) && PhaseAt(w, StageIndex(w, p)) == p
  {
  }

  /** The retired operation is operation number `k` of the task. */
  predicate IsOperation(r: Retired, t: Task, k: nat) {
    var phase := PhaseAt(t.workload, k);
    && k < StageCount(t.workload)
    && match r
       case DmaDone(q) => IsDmaPhase(phase) && StageTransfer(t.(phase := phase)) == Success(q)
       case DmaFault(q, _) => IsDmaPhase(phase) && StageTransfer(t.(phase := phase)) == Success(q)
       case CommandDone(c) => phase.Execute? && MakeCommand(t) == Success(c)
       case CommandFault(c, _) => phase.Execute? && MakeCommand(t) == Success(c)
  }

  /** How many of the first `n` operations belong to task `i`. */
  function Count(owners: seq<nat>, n: nat, i: nat): nat
    requires n <= |owners|
  {
    if n == 0 then 0 else Count(owners, n - 1, i) + One(owners[n - 1] == i)
  }

  /** The k-th operation retired belongs to its owner: it is the next one of the owner's pipeline, and it is a
      fault exactly if it is the one the owner is lost for. */
  predicate EntryOk(s: Sched, d: Device, before: nat, owners: seq<nat>, k: nat)
    requires k < |owners| && before + k < |d.retired|
  {
    var i := owners[k];
    && i < |s.tasks|
    && IsOperation(d.retired[before + k], s.tasks[i], Count(owners, k, i))
    && (IsFault(d.retired[before + k]) <==> Lost(s, d, i) && Count(owners, k, i) == Operations(s, d, i))
  }

  /** `owners` attributes the operations retired since `before` to tasks, so that each task has retired just the
      operations it has behind it, and the one it failed in. */
  predicate Attributed(s: Sched, d: Device, before: seq<Retired>, owners: seq<nat>) {
    && before <= d.retired && |d.retired| == |before| + |owners|
    && (forall k: nat :: k < |owners| ==> EntryOk(s, d, |before|, owners, k))
    && (forall i: nat :: i < |s.tasks| ==>
          Count(owners, |owners|, i) == Operations(s, d, i) + One(Lost(s, d, i)))
  }

  // ---- Counting ----

  lemma {:induction false} CountPrefix(owners: seq<nat>, x: nat, n: nat, i: nat)
    requires n <= |owners|
    ensures Count(owners + [x], n, i) == Count(owners, n, i)
    decreases n
  {
    if n != 0 {
      CountPrefix(owners, x, n - 1, i);
    }
  }

  lemma CountAppend(owners: seq<nat>, x: nat, i: nat)
    ensures Count(owners + [x], |owners| + 1, i) == Count(owners, |owners|, i) + One(x == i)
  {
    CountPrefix(owners, x, |owners|, i);
  }

  /** Only the first occurrences are counted before an occurrence. */
  lemma {:induction false} CountGrows(owners: seq<nat>, k: nat, n: nat, i: nat)
    requires k < n <= |owners| && owners[k] == i
    ensures Count(owners, k, i) < Count(owners, n, i)
    decreases n
  {
    if k < n - 1 {
      CountGrows(owners, k, n - 1, i);
    }
  }

  /** The last occurrence. */
  lemma {:induction false} LastOccurrence(owners: seq<nat>, n: nat, i: nat) returns (k: nat)
    requires n <= |owners| && Count(owners, n, i) != 0
    ensures k < n && owners[k] == i && Count(owners, k, i) + 1 == Count(owners, n, i)
    decreases n
  {
    if owners[n - 1] == i {
      k := n - 1;
    } else {
      k := LastOccurrence(owners, n - 1, i);
    }
  }

  // ---- The moves ----

  /** Retiring operation r of task `i`, finished or faulted. */
  lemma RetirementAttributed(s: Sched, d: Device, d': Device, before: seq<Retired>, owners: seq<nat>, i: nat,
                             r: Retired)
    requires Attributed(s, d, before, owners) && i < |s.tasks|
    requires d'.retired == d.retired + [r] && !Lost(s, d, i) && IsOperation(r, s.tasks[i], Operations(s, d, i))
    requires forall j: nat :: j != i ==> Operations(s, d', j) == Operations(s, d, j) && Lost(s, d', j) == Lost(s, d, j)
    requires if IsFault(r) then Lost(s, d', i) && Operations(s, d', i) == Operations(s, d, i)
             else !Lost(s, d', i) && Operations(s, d', i) == Operations(s, d, i) + 1
    ensures Attributed(s, d', before, owners + [i])
  {
    var owners' := owners + [i];
    forall k: nat | k < |owners'|
      ensures EntryOk(s, d', |before|, owners', k)
    {
      CountPrefix(owners, i, k, owners'[k]);
      if k < |owners| {
        assert EntryOk(s, d, |before|, owners, k);
        assert d'.retired[|before| + k] == d.retired[|before| + k];
        CountGrows(owners, k, |owners|, owners[k]);
      }
    }
    forall j: nat | j < |s.tasks|
      ensures Count(owners', |owners'|, j) == Operations(s, d', j) + One(Lost(s, d', j))
    {
      CountAppend(owners, i, j);
    }
  }

  lemma DmaTickAttributed(s: Sched, d: Device, v: Verdict, before: seq<Retired>, owners: seq<nat>)
    returns (owners': seq<nat>)
    requires Sound(s, d) && Attributed(s, d, before, owners)
    ensures Attributed(s, TickDma(d, v), before, owners')
  {
    owners' := owners;
    if DmaBusy(d) && !v.Waiting? {
      DmaRunning(s, d);
      DmaCompletionMoves(s, d, v);
      var i := s.dmaOwner.value;
      var d' := CompleteDma(d, v);
      PhaseOfStage(s.tasks[i].workload, s.tasks[i].phase);
      forall j: nat | j != i
        ensures Operations(s, d', j) == Operations(s, d, j) && Lost(s, d', j) == Lost(s, d, j)
      {
        DmaCompletionMovesOwner(s, d, d', j);
      }
      owners' := owners + [i];
      RetirementAttributed(s, d, d', before, owners, i, d'.retired[|d.retired|]);
    } else {
      EventsUnattributed(s, d, TickDma(d, v), before, owners);
    }
  }

  /** Operations in flight are not attributed, whatever they have written. */
  lemma EventsUnattributed(s: Sched, d: Device, d': Device, before: seq<Retired>, owners: seq<nat>)
    requires d' == d.(events := d'.events) && Attributed(s, d, before, owners)
    ensures Attributed(s, d', before, owners)
  {
    forall j: nat
      ensures Operations(s, d', j) == Operations(s, d, j) && Lost(s, d', j) == Lost(s, d, j)
    {
    }
    AttributionStands(s, d, s, d', before, owners);
  }

  lemma CommandTickAttributed(s: Sched, d: Device, v: Verdict, before: seq<Retired>, owners: seq<nat>)
    returns (owners': seq<nat>)
    requires Sound(s, d) && Attributed(s, d, before, owners)
    ensures Attributed(s, TickAccelerator(d, v), before, owners')
  {
    owners' := owners;
    if CommandBusy(d) && !v.Waiting? {
      CommandRunning(s, d);
      CommandCompletionMoves(s, d, v);
      var i := s.accelOwner.value;
      var d' := CompleteAccelerator(d, v);
      PhaseOfStage(s.tasks[i].workload, s.tasks[i].phase);
      forall j: nat | j != i
        ensures Operations(s, d', j) == Operations(s, d, j) && Lost(s, d', j) == Lost(s, d, j)
      {
        CommandCompletionMovesOwner(s, d, d', j);
      }
      owners' := owners + [i];
      RetirementAttributed(s, d, d', before, owners, i, d'.retired[|d.retired|]);
    } else {
      EventsUnattributed(s, d, TickAccelerator(d, v), before, owners);
    }
  }

  /** When nothing retires and nobody's progress changes, the attribution stands. */
  lemma AttributionStands(s: Sched, d: Device, s': Sched, d': Device, before: seq<Retired>, owners: seq<nat>)
    requires Attributed(s, d, before, owners)
    requires d'.retired == d.retired && |s.tasks| <= |s'.tasks|
    requires forall j: nat :: Operations(s', d', j) == Operations(s, d, j) && Lost(s', d', j) == Lost(s, d, j)
    requires forall j: nat :: j < |s.tasks| ==> SameOperations(s.tasks[j], s'.tasks[j])
    ensures Attributed(s', d', before, owners)
  {
    forall k: nat | k < |owners|
      ensures EntryOk(s', d', |before|, owners, k)
    {
      assert EntryOk(s, d, |before|, owners, k);
    }
    forall j: nat | |s.tasks| <= j < |s'.tasks|
      ensures Count(owners, |owners|, j) == 0
    {
      NobodyBeyond(s, d, before, owners, |owners|, j);
    }
  }

  predicate SameOperations(t: Task, t': Task) {
    t'.workload == t.workload && t'.id == t.id && t'.priority == t.priority
  }

  lemma {:induction false} NobodyBeyond(s: Sched, d: Device, before: seq<Retired>, owners: seq<nat>, n: nat, j: nat)
    requires Attributed(s, d, before, owners) && n <= |owners| && j >= |s.tasks|
    ensures Count(owners, n, j) == 0
    decreases n
  {
    if n != 0 {
      assert EntryOk(s, d, |before|, owners, n - 1);
      NobodyBeyond(s, d, before, owners, n - 1, j);
    }
  }

  lemma DmaWakeupKeepsOperations(s: Sched, event: Option<CompletionStatus>, j: nat)
    requires Structure(s) && j < |s.tasks|
    ensures SameOperations(s.tasks[j], ServeDma(s, event).tasks[j])
  {
  }

  lemma CommandWakeupKeepsOperations(s: Sched, event: Option<CompletionStatus>, j: nat)
    requires Structure(s) && j < |s.tasks|
    ensures SameOperations(s.tasks[j], ServeAccelerator(s, event).tasks[j])
  {
  }

  lemma LaunchKeepsOperations(s: Sched, i: nat, j: nat)
    requires Structure(s) && i < |s.tasks| && j < |s.tasks|
    ensures SameOperations(s.tasks[j], Launch(s, i).tasks[j])
  {
  }

  lemma QuietMoveKeepsOperations(env: Env, m: Move, s: Sched, d: Device, s': Sched, d': Device, j: nat)
    requires Sound(s, d) && Moves(env, m, s, d, s', d') && !m.HardwareTicks? && j < |s.tasks|
    ensures j < |s'.tasks| && SameOperations(s.tasks[j], s'.tasks[j])
  {
    match m
    case DmaWakes => DmaWakeupKeepsOperations(s, Some(DmaStatus(d)), j);
    case AcceleratorWakes => CommandWakeupKeepsOperations(s, Some(CommandStatus(d)), j);
    case DmaLaunches(i) => LaunchKeepsOperations(s, i, j);
    case AcceleratorLaunches(i) => LaunchKeepsOperations(s, i, j);
    case Unseen =>
  }

  lemma MoveAttributed(env: Env, m: Move, s: Sched, d: Device, s': Sched, d': Device, before: seq<Retired>,
                       owners: seq<nat>)
    returns (owners': seq<nat>)
    requires Sound(s, d) && Moves(env, m, s, d, s', d') && Attributed(s, d, before, owners)
    ensures Attributed(s', d', before, owners')
  {
    if m.HardwareTicks? {
      owners' := TickAttributed(env, s, d, before, owners);
    } else {
      owners' := owners;
      forall j: nat
        ensures d'.retired == d.retired && |s'.tasks| == |s.tasks|
        ensures Operations(s', d', j) == Operations(s, d, j) && Lost(s', d', j) == Lost(s, d, j)
        ensures j < |s.tasks| ==> SameOperations(s.tasks[j], s'.tasks[j])
      {
        QuietMove(env, m, s, d, s', d', j);
        if j < |s.tasks| {
          QuietMoveKeepsOperations(env, m, s, d, s', d', j);
        }
      }
      AttributionStands(s, d, s', d', before, owners);
    }
  }

  lemma TickAttributed(env: Env, s: Sched, d: Device, before: seq<Retired>, owners: seq<nat>)
    returns (owners': seq<nat>)
    requires Sound(s, d) && Attributed(s, d, before, owners)
    ensures Attributed(s, Tick(env, d), before, owners')
  {
    TickParts(env, s, d);
    var step := env(d.time);
    owners' := DmaTickAttributed(s, d, step.dma, before, owners);
    var d1 := TickDma(d, step.dma);
    owners' := CommandTickAttributed(s, d1, step.accelerator, before, owners');
    var d2 := TickAccelerator(d1, step.accelerator);
    forall j: nat
      ensures Operations(s, Tick(env, d), j) == Operations(s, d2, j) && Lost(s, Tick(env, d), j) == Lost(s, d2, j)
    {
      UnseenKeepsProgress(s, d2, s, Tick(env, d), j);
    }
    AttributionStands(s, d2, s, Tick(env, d), before, owners');
  }

  lemma SubmissionAttributed(s: Sched, d: Device, r: Request, before: seq<Retired>, owners: seq<nat>)
    requires Sound(s, d) && Attributed(s, d, before, owners)
    ensures Attributed(Submit(s, r).0, d, before, owners)
  {
    var s' := Submit(s, r).0;
    assert s.dmaOwner != Some(|s.tasks|) && s.accelOwner != Some(|s.tasks|);
    AttributionStands(s, d, s', d, before, owners);
  }

  // ---- Every run ----

  ghost predicate Attributable(s: Sched, d: Device, before: seq<Retired>) {
    exists owners :: Attributed(s, d, before, owners)
  }

  ghost function Attributably(before: seq<Retired>): Property {
    (s, d) => Attributable(s, d, before)
  }

  lemma AttributionIsStable(env: Env, before: seq<Retired>)
    ensures Stable(env, Attributably(before)) && SurvivesSubmission(Attributably(before))
  {
    var P := Attributably(before);
    forall m, s, d, s', d' | Sound(s, d) && Moves(env, m, s, d, s', d') && P(s, d)
      ensures P(s', d')
    {
      var owners :| Attributed(s, d, before, owners);
      var owners' := MoveAttributed(env, m, s, d, s', d', before, owners);
    }
    forall s, d, r | Sound(s, d) && P(s, d)
      ensures P(Submit(s, r).0, d)
    {
      var owners :| Attributed(s, d, before, owners);
      SubmissionAttributed(s, d, r, before, owners);
    }
  }

  /** Attribution over every run from boot: the operations retired since boot can be shared out among the tasks
      so that each task's share is its own pipeline in order, as far as it has got, ending with a fault
      exactly if the task is lost. Nothing else is ever retired. */
  lemma RunsAreAttributable(env: Env, d: Device, interval: U32, activities: seq<Activity>) returns (owners: seq<nat>)
    requires Idle(d)
    ensures var end := Run(env, Started(env, d, interval), activities);
      Attributed(end.sched, end.device, d.retired, owners)
    ensures var end := Run(env, Started(env, d, interval), activities);
      forall i: nat :: i < |end.sched.tasks| ==>
        (end.sched.tasks[i].state.Error? <==> OwnFault(end, d.retired, owners, i) && OwnsNothing(end.sched, i))
  {
    BootLinks(env, d, interval);
    var start := Started(env, d, interval);
    AttributionIsStable(env, d.retired);
    assert Attributed(start.sched, start.device, d.retired, []);
    RunSurvives(Attributably(d.retired), env, start, activities);
    var end := Run(env, start, activities);
    owners :| Attributed(end.sched, end.device, d.retired, owners);
    forall i: nat | i < |end.sched.tasks|
      ensures end.sched.tasks[i].state.Error? <==> OwnFault(end, d.retired, owners, i) && OwnsNothing(end.sched, i)
    {
      ErrorExactly(end, d.retired, owners, i);
    }
  }

  /** One of the operations attributed to the task is a fault. */
  predicate OwnFault(sys: System, before: seq<Retired>, owners: seq<nat>, i: nat)
    requires |before| + |owners| <= |sys.device.retired|
  {
    exists k: nat :: k < |owners| && owners[k] == i && IsFault(sys.device.retired[|before| + k])
  }

  /** No operation of the task is in flight or waiting to be served. */
  predicate OwnsNothing(s: Sched, i: nat) {
    s.dmaOwner != Some(i) && s.accelOwner != Some(i)
  }

  /** A task is in ERROR exactly when one of its own operations is a fault and has been served. */
  lemma ErrorExactly(sys: System, before: seq<Retired>, owners: seq<nat>, i: nat)
    requires Structure(sys.sched) && i < |sys.sched.tasks| && Attributed(sys.sched, sys.device, before, owners)
    ensures sys.sched.tasks[i].state.Error? <==> OwnFault(sys, before, owners, i) && OwnsNothing(sys.sched, i)
  {
    var s, d := sys.sched, sys.device;
    assert TaskOk(s, i);
    if s.tasks[i].state.Error? {
      var k := LastOccurrence(owners, |owners|, i);
      assert EntryOk(s, d, |before|, owners, k);
    }
    if OwnFault(sys, before, owners, i) {
      var k: nat :| k < |owners| && owners[k] == i && IsFault(d.retired[|before| + k]);
      assert EntryOk(s, d, |before|, owners, k);
    }
  }
}

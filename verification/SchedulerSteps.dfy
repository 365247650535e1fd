/** The scheduler with the hardware reduced to the completions each call observes. `Protocol` shows that
    a call against the device is such a step; everything about whole runs is proved here. */
module SchedulerSteps {
  import opened Words
  import opened DeviceModel
  import opened Tasks
  import opened Layout
  import opened SchedulerSpec

  /** What one call observes: a DMA completion, a command completion, a timer tick. */
  datatype Events = Events(dma: Option<CompletionStatus>, accelerator: Option<CompletionStatus>, timer: bool)

  datatype Action = Submission(request: Request) | Call(events: Events)

  function ServeDma(s: Sched, event: Option<CompletionStatus>): (s': Sched)
    requires Indexed(s)
    ensures Indexed(s') && |s'.tasks| == |s.tasks|
  {
    if event.Some? && s.dmaOwner.Some? then CompleteDmaTask(s, s.dmaOwner.value, event.value).0 else s
  }

  function ServeAccelerator(s: Sched, event: Option<CompletionStatus>): (s': Sched)
    requires Indexed(s)
    ensures Indexed(s') && |s'.tasks| == |s.tasks|
  {
    if event.Some? && s.accelOwner.Some? then CompleteAcceleratorTask(s, s.accelOwner.value, event.value) else s
  }

  function ServeTimer(s: Sched, tick: bool): Sched {
    if tick then s.(timerTicks := s.timerTicks + 1) else s
  }

  /** A call up to the selection: counted, and the observed completions served. */
  function Served(s: Sched, ev: Events): (s': Sched)
    requires Indexed(s)
    ensures Indexed(s') && |s'.tasks| == |s.tasks|
  {
    ServeTimer(ServeAccelerator(ServeDma(CountCall(s), ev.dma), ev.accelerator), ev.timer)
  }

  /** A dispatch that the hardware accepts. */
  function Launch(s: Sched, i: nat): (s': Sched)
    requires i < |s.tasks|
    ensures (Indexed(s) ==> Indexed(s')) && |s'.tasks| == |s.tasks|
  {
    var running := StartRunning(s, i);
    match s.tasks[i].phase
    case Complete => FinishTask(running, i)
    case Execute => BlockOnAccelerator(running, i)
    case _ => BlockOnDma(running, i)
  }

  /** The end of a call: launch the selected task, or count a stall. */
  function Proceed(s: Sched): (s': Sched)
    requires Indexed(s)
    ensures Indexed(s') && |s'.tasks| == |s.tasks|
  {
    match SelectReady(s)
    case Some(i) => Launch(s, i)
    case None => if AllTerminal(s) then s else s.(stalls := s.stalls + 1)
  }

  function StepCall(s: Sched, ev: Events): (s': Sched)
    requires Indexed(s)
    ensures Indexed(s') && |s'.tasks| == |s.tasks|
  {
    Proceed(Served(s, ev))
  }

  function Step(s: Sched, a: Action): (s': Sched)
    requires Indexed(s)
    ensures Indexed(s')
  {
    match a
    case Submission(r) => Submit(s, r).0
    case Call(ev) => StepCall(s, ev)
  }

  function Exec(s: Sched, actions: seq<Action>): (s': Sched)
    requires Indexed(s)
    ensures Indexed(s')
    decreases |actions|
  {
    if |actions| == 0 then s else Exec(Step(s, actions[0]), actions[1..])
  }

  // ---- The pipeline of a task ----

  /** The number of hardware operations of a workload. */
  function StageCount(w: Workload): nat {
    if w.kind.DmaCopy? then 1 else if HasSource1(w) then 4 else 3
  }

  /** How many operations of its workload a task in this phase has behind it. */
  function StageIndex(w: Workload, p: TaskPhase): nat {
    match p
    case Copy => 0
    case LoadSource0 => 0
    case LoadSource1 => 1
    case Execute => if HasSource1(w) then 2 else 1
    case StoreOutput => StageCount(w) - 1
    case Complete => StageCount(w)
  }

  predicate PhaseFits(w: Workload, p: TaskPhase) {
    p.Complete? || ((p.Copy? <==> w.kind.DmaCopy?) && (p.LoadSource1? ==> HasSource1(w)))
  }

  // ---- Submissions ----

  /** A submission in full: the exception that rejects it, or the task it records. A task is numbered by its place
      in the table and starts ready, with its load or its copy before it. */
  lemma SubmissionExact(s: Sched, r: Request)
    ensures var (s', result) := Submit(s, r);
      if !SizesInRange(r) then s' == s && result == Failure(InvalidArgument)
      else if |s.tasks| >= 16 then s' == s && result == Failure(LengthError)
      else
        && result == Success(|s.tasks|)
        && |s'.tasks| == |s.tasks| + 1 && s'.tasks[..|s.tasks|] == s.tasks && s' == s.(tasks := s'.tasks)
        && var t := s'.tasks[|s.tasks|];
           && t.id == |s.tasks| && t.priority == r.priority && t.state.Ready?
           && (if r.CopyRequest? then t.phase.Copy? else t.phase.LoadSource0?)
           && Records(r, t.workload) && t.submittedAt == s.calls && t.completedAt == 0 && t.failure == None
  {
    AcceptsExactly(r);
    if WorkloadOf(r).Success? {
      AcceptedIsRecorded(r);
    }
  }

  // ---- A dispatch ----

  /** A dispatch in full, from any state: the task is recorded in the dispatch order; a task in COMPLETE is finished;
      any other one is blocked on its resource and owns it, or, if the driver throws, keeps running and owns
      no more than before; the device is as the driver leaves it. */
  lemma DispatchExact(env: Env, sys: System, i: nat)
    requires Indexed(sys.sched) && i < |sys.sched.tasks|
    ensures var s, phase := sys.sched, sys.sched.tasks[i].phase;
      var o := Dispatch(env, sys, i); var s' := o.system.sched; var t' := s'.tasks[i];
      && s'.dispatchOrder == s.dispatchOrder + [i]
      && (phase.Complete? ==>
            o.thrown == None && t'.state.Done? && t'.completedAt == s.calls
            && s'.completionOrder == s.completionOrder + [i] && o.system.device == sys.device)
      && (!phase.Complete? ==> s'.completionOrder == s.completionOrder && t'.phase == phase)
      && (!phase.Complete? && o.thrown.Some? ==>
            t'.state.Running? && s'.dmaOwner == s.dmaOwner && s'.accelOwner == s.accelOwner)
      && (phase.Execute? && o.thrown.None? ==>
            t'.state.BlockedOnAccel? && s'.accelOwner == Some(i) && s'.dmaOwner == s.dmaOwner)
      && (IsDmaPhase(phase) && o.thrown.None? ==>
            t'.state.BlockedOnDma? && s'.dmaOwner == Some(i) && s'.accelOwner == s.accelOwner)
  {
  }

  /** An exception of the driver fails the task that was to be dispatched, which then owns nothing. */
  lemma FailedDispatch(env: Env, sys: System, i: nat)
    requires Indexed(sys.sched) && SelectReady(sys.sched) == Some(i) && Dispatch(env, sys, i).thrown.Some?
    ensures var thrown := Dispatch(env, sys, i).thrown.value; var s' := SelectAndDispatch(env, sys).sched;
      && s'.tasks[i].state.Error? && s'.tasks[i].failure == Some(Thrown(thrown))
      && s'.tasks[i].completedAt == sys.sched.calls
      && s'.dmaOwner != Some(i) && s'.accelOwner != Some(i)
  {
  }

  // ---- Completions ----

  /** A completion in full: an operation that has not finished cleanly fails its owner, with the reason that goes
      with the resource; a clean one moves it to the next phase of its pipeline, or finishes it. */
  lemma CompletionExact(s: Sched, i: nat, status: CompletionStatus)
    requires Structure(s) && i < |s.tasks|
    requires s.dmaOwner == Some(i) || s.accelOwner == Some(i)
    ensures var t := s.tasks[i];
      var s' := if s.dmaOwner == Some(i) then ServeDma(s, Some(status)) else ServeAccelerator(s, Some(status));
      var t' := s'.tasks[i];
      && (t'.state.Error? <==> !status.done || status.error)
      && (t'.state.Error? ==>
            && t'.phase == t.phase && t'.completedAt == s.calls
            && t'.failure == Some(if s.dmaOwner == Some(i) then DmaReportedError else AcceleratorReportedError))
      && (!t'.state.Error? ==>
            && StageIndex(t.workload, t'.phase) == StageIndex(t.workload, t.phase) + 1
            && (t'.state.Done? <==> t.phase.Copy? || t.phase.StoreOutput?)
            && (t'.state.Done? ==> t'.completedAt == s.calls && s'.completionOrder == s.completionOrder + [i])
            && (!t'.state.Done? ==> t'.state.Ready? && s'.completionOrder == s.completionOrder))
  {
    assert TaskOk(s, i);
    if !s.tasks[i].workload.kind.DmaCopy? {
      AcceptedByteCounts(s.tasks[i].workload);
    }
  }

  /** The paths of a DMA completion that no reachable state takes: a task in a phase without a transfer fails for
      that reason, and a byte count over 32 bits leaves as an exception, with the engine released. */
  lemma UnexpectedCompletion(s: Sched, i: nat, status: CompletionStatus)
    requires Indexed(s) && i < |s.tasks| && status.done && !status.error
    ensures var t := s.tasks[i]; var (s', thrown) := CompleteDmaTask(s, i, status);
      && (t.phase.Execute? || t.phase.Complete? ==>
            thrown == None && s'.tasks[i].state.Error? && s'.tasks[i].failure == Some(DmaInvalidPhase))
      && (thrown.Some? <==> t.phase.LoadSource0? && 2 * Source1Elements(t.workload) >= 0x1_0000_0000)
      && (thrown.Some? ==> thrown == Some(OverflowError) && s' == s.(dmaOwner := None))
  {
    ByteCountsExact(s.tasks[i].workload);
  }

  // ---- Ownership ----

  predicate TaskOk(s: Sched, i: nat)
    requires i < |s.tasks|
  {
    var t := s.tasks[i];
    && Accepted(t.workload)
    && PhaseFits(t.workload, t.phase)
    && !t.state.Running?
    && (t.state.Done? <==> t.phase.Complete?)
    && (t.state.BlockedOnDma? <==> s.dmaOwner == Some(i))
    && (t.state.BlockedOnDma? ==> IsDmaPhase(t.phase))
    && (t.state.BlockedOnAccel? <==> s.accelOwner == Some(i))
    && (t.state.BlockedOnAccel? ==> t.phase.Execute?)
    && (t.state.Error? ==> t.failure == Some(if t.phase.Execute? then AcceleratorReportedError else DmaReportedError))
    && (!t.state.Error? ==> t.failure == None)
  }

  /** The ownership invariant: the DMA owner is exactly the one task blocked on DMA, and it is in a DMA
      phase; likewise for the accelerator and EXECUTE; no task is RUNNING; COMPLETE goes with DONE; a
      failed task failed because the device reported an error: the accelerator in EXECUTE, the DMA engine
      in every other phase. */
  predicate Structure(s: Sched) {
    Indexed(s) && forall i :: 0 <= i < |s.tasks| ==> TaskOk(s, i)
  }

  lemma ServeDmaKeepsStructure(s: Sched, event: Option<CompletionStatus>)
    requires Structure(s)
    ensures Structure(ServeDma(s, event))
    ensures event.Some? && s.dmaOwner.Some? ==> CompleteDmaTask(s, s.dmaOwner.value, event.value).1 == None
    ensures event.Some? ==> ServeDma(s, event).dmaOwner == None
  {
    if event.Some? && s.dmaOwner.Some? {
      var i := s.dmaOwner.value;
      ServedDmaOwner(s, i, event.value);
      var s' := ServeDma(s, event);
      forall j | 0 <= j < |s'.tasks| ensures TaskOk(s', j) {
        assert TaskOk(s, j);
      }
    }
  }

  /** The owner of the DMA engine leaves a completion in good order, and no other task is touched. */
  lemma ServedDmaOwner(s: Sched, i: nat, status: CompletionStatus)
    requires Structure(s) && s.dmaOwner == Some(i)
    ensures var (s', thrown) := CompleteDmaTask(s, i, status);
      && thrown == None && i < |s.tasks| && |s'.tasks| == |s.tasks|
      && s'.dmaOwner == None && s'.accelOwner == s.accelOwner && TaskOk(s', i)
      && forall j :: 0 <= j < |s.tasks| && j != i ==> s'.tasks[j] == s.tasks[j]
  {
    assert TaskOk(s, i);
    if !s.tasks[i].workload.kind.DmaCopy? {
      AcceptedByteCounts(s.tasks[i].workload);
    }
  }

  lemma ServeAcceleratorKeepsStructure(s: Sched, event: Option<CompletionStatus>)
    requires Structure(s)
    ensures Structure(ServeAccelerator(s, event))
    ensures event.Some? ==> ServeAccelerator(s, event).accelOwner == None
  {
    if event.Some? && s.accelOwner.Some? {
      var i := s.accelOwner.value;
      assert TaskOk(s, i);
      var s' := ServeAccelerator(s, event);
      forall j | 0 <= j < |s'.tasks| ensures TaskOk(s', j) {
        assert TaskOk(s, j);
      }
    }
  }

  lemma ServedKeepsStructure(s: Sched, ev: Events)
    requires Structure(s)
    ensures Structure(Served(s, ev))
  {
    var s1 := CountCall(s);
    CountersKeepStructure(s, s1);
    ServeDmaKeepsStructure(s1, ev.dma);
    var s2 := ServeDma(s1, ev.dma);
    ServeAcceleratorKeepsStructure(s2, ev.accelerator);
    var s3 := ServeAccelerator(s2, ev.accelerator);
    CountersKeepStructure(s3, ServeTimer(s3, ev.timer));
  }

  /** The two states differ at most in counters and orders. */
  predicate SameTasks(s: Sched, s': Sched) {
    s'.tasks == s.tasks && s'.dmaOwner == s.dmaOwner && s'.accelOwner == s.accelOwner
  }

  lemma CountersKeepStructure(s: Sched, s': Sched)
    requires Structure(s) && SameTasks(s, s')
    ensures Structure(s')
  {
    forall j | 0 <= j < |s'.tasks| ensures TaskOk(s', j) {
      assert TaskOk(s, j);
    }
  }

  lemma LaunchKeepsStructure(s: Sched, i: nat)
    requires Structure(s) && i < |s.tasks| && Candidate(s, i)
    ensures Structure(Launch(s, i))
    ensures !s.tasks[i].phase.Complete?
  {
    assert TaskOk(s, i);
    var s' := Launch(s, i);
    forall j | 0 <= j < |s'.tasks| ensures TaskOk(s', j) {
      assert TaskOk(s, j);
    }
  }

  lemma ProceedKeepsStructure(s: Sched)
    requires Structure(s)
    ensures Structure(Proceed(s))
  {
    match SelectReady(s)
    case Some(i) => LaunchKeepsStructure(s, i);
    case None => CountersKeepStructure(s, Proceed(s));
  }

  lemma SubmitKeepsStructure(s: Sched, r: Request)
    requires Structure(s)
    ensures Structure(Submit(s, r).0)
  {
    WorkloadOfIsAccepted(r);
    var s' := Submit(s, r).0;
    forall j | 0 <= j < |s'.tasks| ensures TaskOk(s', j) {
      if j < |s.tasks| {
        assert TaskOk(s, j);
      }
    }
  }

  lemma StepKeepsStructure(s: Sched, a: Action)
    requires Structure(s)
    ensures Structure(Step(s, a))
  {
    match a
    case Submission(r) => SubmitKeepsStructure(s, r);
    case Call(ev) =>
      ServedKeepsStructure(s, ev);
      ProceedKeepsStructure(Served(s, ev));
  }

  /** Ownership in every reachable state. */
  lemma {:induction false} RunsKeepStructure(s: Sched, actions: seq<Action>)
    requires Structure(s)
    ensures Structure(Exec(s, actions))
    decreases |actions|
  {
    if |actions| != 0 {
      StepKeepsStructure(s, actions[0]);
      RunsKeepStructure(Step(s, actions[0]), actions[1..]);
    }
  }
}

/** How far each task has got, next to the device, and what its operation in flight reads and writes. */
module Pipeline {
  import opened Words
  import opened Soc
  import opened DeviceModel
  import opened Tasks
  import opened Layout
  import opened SchedulerSpec
  import opened SchedulerSteps
  import opened Interference
  import opened MemoryModel
  import opened Refinement

  // ---- Progress of a task, including what the hardware has finished but nobody has served ----

  predicate Succeeded(s: Sched, d: Device, i: nat) {
    || (s.dmaOwner == Some(i) && !DmaBusy(d) && !DmaStatus(d).error)
    || (s.accelOwner == Some(i) && !CommandBusy(d) && !CommandStatus(d).error)
  }

  predicate Faulted(s: Sched, d: Device, i: nat) {
    || (s.dmaOwner == Some(i) && !DmaBusy(d) && DmaStatus(d).error)
    || (s.accelOwner == Some(i) && !CommandBusy(d) && CommandStatus(d).error)
  }

  /** Operations of task `i` the hardware has completed. A task not yet submitted has none. */
  function Operations(s: Sched, d: Device, i: nat): nat {
    if i >= |s.tasks| then 0
    else StageIndex(s.tasks[i].workload, s.tasks[i].phase) + (if Succeeded(s, d, i) then 1 else 0)
  }

  predicate Lost(s: Sched, d: Device, i: nat) {
    i < |s.tasks| && (s.tasks[i].state.Error? || Faulted(s, d, i))
  }

  // ---- What a task writes ----

  predicate InSlot(i: nat, span: Span) {
    Inside(span.start, span.size, Slot(i).start, Slot(i).size)
  }

  /** The copy or the store of the task has been started, but the task is not DONE. */
  predicate Exposed(t: Task) {
    (t.state.BlockedOnDma? || t.state.Error?) && (t.phase.Copy? || t.phase.StoreOutput?)
  }

  /** The task may write its slot, and its destination in its last operation. */
  predicate Owns(t: Task, span: Span) {
    InSlot(t.id, span) || (Exposed(t) && span == ResultSpan(t.workload))
  }

  lemma TransferIsOwned(t: Task, q: DmaRequest)
    requires t.id < TASK_SLOT_COUNT && Accepted(t.workload) && t.state.BlockedOnDma?
    requires PhaseFits(t.workload, t.phase) && IsDmaPhase(t.phase) && StageTransfer(t) == Success(q)
    ensures Owns(t, Span(q.destination, q.length))
  {
    SlotAddresses(t.id);
    if !t.workload.kind.DmaCopy? {
      AcceptedByteCounts(t.workload);
    }
  }

  lemma CommandIsOwned(t: Task, c: Command)
    requires t.id < TASK_SLOT_COUNT && Accepted(t.workload)
    requires !t.workload.kind.DmaCopy? && MakeCommand(t) == Success(c)
    ensures Owns(t, Span(c.destination, 2 * OutputCount(CommandOperation(c))))
  {
    SlotAddresses(t.id);
    SpanSizes(t.workload);
    CommandFields(t, c);
    AcceptedCounts(t.workload);
  }

  // ---- The moves ----

  /** The owner of a running operation has neither failed nor finished it. */
  lemma DmaRunning(s: Sched, d: Device)
    requires Sound(s, d) && DmaBusy(d)
    ensures s.dmaOwner.Some? && TaskOk(s, s.dmaOwner.value)
    ensures var i := s.dmaOwner.value;
      && !Lost(s, d, i) && IsDmaPhase(s.tasks[i].phase) && StageTransfer(s.tasks[i]) == Success(d.dma)
      && Operations(s, d, i) == StageIndex(s.tasks[i].workload, s.tasks[i].phase)
  {
    assert TaskOk(s, s.dmaOwner.value);
  }

  lemma CommandRunning(s: Sched, d: Device)
    requires Sound(s, d) && CommandBusy(d)
    ensures s.accelOwner.Some? && TaskOk(s, s.accelOwner.value)
    ensures var i := s.accelOwner.value;
      && !Lost(s, d, i) && s.tasks[i].phase.Execute? && MakeCommand(s.tasks[i]) == Success(d.command)
      && Operations(s, d, i) == StageIndex(s.tasks[i].workload, Execute)
  {
    assert TaskOk(s, s.accelOwner.value);
  }

  /** A completion of one resource moves nobody but its owner. */
  lemma DmaCompletionMovesOwner(s: Sched, d: Device, d': Device, j: nat)
    requires s.dmaOwner != Some(j) && Peek(d', REG_CMD_STATUS) == Peek(d, REG_CMD_STATUS)
    ensures Operations(s, d', j) == Operations(s, d, j) && Lost(s, d', j) == Lost(s, d, j)
  {
  }

  lemma CommandCompletionMovesOwner(s: Sched, d: Device, d': Device, j: nat)
    requires s.accelOwner != Some(j) && Peek(d', REG_DMA_STATUS) == Peek(d, REG_DMA_STATUS)
    ensures Operations(s, d', j) == Operations(s, d, j) && Lost(s, d', j) == Lost(s, d, j)
  {
  }

  lemma DmaCompletionMoves(s: Sched, d: Device, v: Verdict)
    requires Sound(s, d) && DmaBusy(d) && !v.Waiting?
    ensures var d' := CompleteDma(d, v); var i := s.dmaOwner.value; var r := d'.retired[|d.retired|];
      && d'.retired == d.retired + [r] && d'.events == d.events + [Leaving(r, d.dmaSince, Moments(v))]
      && SameCommand(d, d') && !DmaBusy(d')
      && (r == DmaDone(d.dma) || (r.DmaFault? && r.request == d.dma))
      && (r.DmaDone? ==> !Lost(s, d', i) && Operations(s, d', i) == Operations(s, d, i) + 1)
      && (r.DmaFault? ==> Lost(s, d', i) && Operations(s, d', i) == Operations(s, d, i))
  {
    DmaRunning(s, d);
  }

  lemma CommandCompletionMoves(s: Sched, d: Device, v: Verdict)
    requires Sound(s, d) && CommandBusy(d) && !v.Waiting?
    ensures var d' := CompleteAccelerator(d, v); var i := s.accelOwner.value; var r := d'.retired[|d.retired|];
      && d'.retired == d.retired + [r] && d'.events == d.events + [Leaving(r, d.commandSince, Moments(v))]
      && SameDma(d, d') && !CommandBusy(d')
      && (r == CommandDone(d.command) || (r.CommandFault? && r.command == d.command))
      && (r.CommandDone? ==> !Lost(s, d', i) && Operations(s, d', i) == Operations(s, d, i) + 1)
      && (r.CommandFault? ==> Lost(s, d', i) && Operations(s, d', i) == Operations(s, d, i))
  {
    CommandRunning(s, d);
  }

  lemma DmaWakeupKeepsProgress(s: Sched, d: Device, j: nat)
    requires Sound(s, d) && s.dmaOwner.Some? && !DmaBusy(d)
    ensures var s' := ServeDma(s, Some(DmaStatus(d)));
      Operations(s', d, j) == Operations(s, d, j) && Lost(s', d, j) == Lost(s, d, j)
      && (j < |s.tasks| ==> s'.tasks[j].workload == s.tasks[j].workload)
  {
    var i := s.dmaOwner.value;
    assert TaskOk(s, i);
    if !s.tasks[i].workload.kind.DmaCopy? {
      AcceptedByteCounts(s.tasks[i].workload);
    }
  }

  lemma CommandWakeupKeepsProgress(s: Sched, d: Device, j: nat)
    requires Sound(s, d) && s.accelOwner.Some? && !CommandBusy(d)
    ensures var s' := ServeAccelerator(s, Some(CommandStatus(d)));
      Operations(s', d, j) == Operations(s, d, j) && Lost(s', d, j) == Lost(s, d, j)
      && (j < |s.tasks| ==> s'.tasks[j].workload == s.tasks[j].workload)
  {
    var i := s.accelOwner.value;
    assert TaskOk(s, i);
  }

  lemma LaunchKeepsProgress(env: Env, m: Move, s: Sched, d: Device, s': Sched, d': Device, j: nat)
    requires Sound(s, d) && Moves(env, m, s, d, s', d') && (m.DmaLaunches? || m.AcceleratorLaunches?)
    ensures Operations(s', d', j) == Operations(s, d, j) && Lost(s', d', j) == Lost(s, d, j)
    ensures |s'.tasks| == |s.tasks| && (j < |s.tasks| ==> s'.tasks[j].workload == s.tasks[j].workload)
  {
    if m.DmaLaunches? {
      DmaLaunchKeepsProgress(s, d, d', m.task, j);
    } else {
      CommandLaunchKeepsProgress(s, d, d', m.task, j);
    }
  }

  lemma DmaLaunchKeepsProgress(s: Sched, d: Device, d': Device, i: nat, j: nat)
    requires Structure(s) && i < |s.tasks| && Candidate(s, i) && IsDmaPhase(s.tasks[i].phase)
    requires SameCommand(d, d') && DmaBusy(d')
    ensures var s' := Launch(s, i);
      && Operations(s', d', j) == Operations(s, d, j) && Lost(s', d', j) == Lost(s, d, j)
      && (j < |s.tasks| ==> s'.tasks[j].workload == s.tasks[j].workload)
  {
    assert TaskOk(s, i);
  }

  lemma CommandLaunchKeepsProgress(s: Sched, d: Device, d': Device, i: nat, j: nat)
    requires Structure(s) && i < |s.tasks| && Candidate(s, i) && s.tasks[i].phase.Execute?
    requires SameDma(d, d') && CommandBusy(d')
    ensures var s' := Launch(s, i);
      && Operations(s', d', j) == Operations(s, d, j) && Lost(s', d', j) == Lost(s, d, j)
      && (j < |s.tasks| ==> s'.tasks[j].workload == s.tasks[j].workload)
  {
    assert TaskOk(s, i);
  }

  lemma UnseenKeepsProgress(s: Sched, d: Device, s': Sched, d': Device, j: nat)
    requires SameLedger(s, s') && SameProgress(s, d, d')
    ensures Operations(s', d', j) == Operations(s, d, j) && Lost(s', d', j) == Lost(s, d, j)
  {
  }

  /** A move that completes nothing leaves memory and everybody's progress alone. */
  lemma QuietMove(env: Env, m: Move, s: Sched, d: Device, s': Sched, d': Device, j: nat)
    requires Sound(s, d) && Moves(env, m, s, d, s', d') && !m.HardwareTicks?
    ensures SameHistory(d, d') && |s'.tasks| == |s.tasks|
    ensures Operations(s', d', j) == Operations(s, d, j) && Lost(s', d', j) == Lost(s, d, j)
    ensures j < |s.tasks| ==> s'.tasks[j].workload == s.tasks[j].workload
  {
    match m
    case DmaWakes => DmaWakeupKeepsProgress(s, d, j);
    case AcceleratorWakes => CommandWakeupKeepsProgress(s, d, j);
    case DmaLaunches(_) => LaunchKeepsProgress(env, m, s, d, s', d', j);
    case AcceleratorLaunches(_) => LaunchKeepsProgress(env, m, s, d, s', d', j);
    case Unseen => UnseenKeepsProgress(s, d, s', d', j);
  }

  /** What a quiet move does to a task: terminal tasks stay as they are, and a task becomes DONE only when it is
      woken from its copy or store. */
  lemma QuietTask(env: Env, m: Move, s: Sched, d: Device, s': Sched, d': Device, j: nat)
    requires Sound(s, d) && Moves(env, m, s, d, s', d') && !m.HardwareTicks? && j < |s.tasks|
    ensures |s'.tasks| == |s.tasks| && Changes(s.tasks[j], s'.tasks[j])
    ensures s'.tasks[j].state.Done? && !s.tasks[j].state.Done? ==> m.DmaWakes? && s.dmaOwner == Some(j)
  {
    match m
    case DmaWakes => DmaWakeupChanges(s, DmaStatus(d), j);
    case AcceleratorWakes => CommandWakeupChanges(s, CommandStatus(d), j);
    case DmaLaunches(i) => LaunchChanges(s, i, j);
    case AcceleratorLaunches(i) => LaunchChanges(s, i, j);
    case Unseen =>
  }

  predicate Changes(t: Task, t': Task) {
    && t'.workload == t.workload && t'.id == t.id
    && (Terminal(t) ==> t' == t)
    && (Exposed(t) && !t'.state.Done? ==> Exposed(t'))
    && (t'.state.Done? && !t.state.Done? ==> Exposed(t))
  }

  lemma DmaWakeupChanges(s: Sched, status: CompletionStatus, j: nat)
    requires Structure(s) && s.dmaOwner.Some? && j < |s.tasks|
    ensures var s' := ServeDma(s, Some(status));
      && |s'.tasks| == |s.tasks| && Changes(s.tasks[j], s'.tasks[j])
      && (s'.tasks[j].state.Done? && !s.tasks[j].state.Done? ==> s.dmaOwner == Some(j))
  {
    assert TaskOk(s, j) && TaskOk(s, s.dmaOwner.value);
    if j == s.dmaOwner.value && !s.tasks[j].workload.kind.DmaCopy? {
      AcceptedByteCounts(s.tasks[j].workload);
    }
  }

  lemma CommandWakeupChanges(s: Sched, status: CompletionStatus, j: nat)
    requires Structure(s) && s.accelOwner.Some? && j < |s.tasks|
    ensures var s' := ServeAccelerator(s, Some(status));
      && |s'.tasks| == |s.tasks| && Changes(s.tasks[j], s'.tasks[j])
      && (s'.tasks[j].state.Done? ==> s.tasks[j].state.Done?)
  {
    assert TaskOk(s, j) && TaskOk(s, s.accelOwner.value);
  }

  lemma LaunchChanges(s: Sched, i: nat, j: nat)
    requires Structure(s) && i < |s.tasks| && Candidate(s, i) && j < |s.tasks|
    ensures Changes(s.tasks[j], Launch(s, i).tasks[j])
    ensures Launch(s, i).tasks[j].state.Done? ==> s.tasks[j].state.Done?
  {
    assert TaskOk(s, i);
  }

  // ---- Tasks and workloads ----

  function WorkloadsOf(tasks: seq<Task>): (ws: seq<Workload>)
    ensures |ws| == |tasks| && forall i :: 0 <= i < |tasks| ==> ws[i] == tasks[i].workload
  {
    seq(|tasks|, i requires 0 <= i < |tasks| => tasks[i].workload)
  }

  /** The tasks submitted so far are the first ones of `ws`. */
  predicate Fits(s: Sched, ws: seq<Workload>) {
    |s.tasks| <= |ws| && forall i :: 0 <= i < |s.tasks| ==> s.tasks[i].workload == ws[i]
  }

  /** A DONE task has all its operations behind it and none in flight. */
  lemma DoneOperations(s: Sched, d: Device, i: nat)
    requires Structure(s) && i < |s.tasks| && s.tasks[i].state.Done?
    ensures Operations(s, d, i) == StageCount(s.tasks[i].workload) && !Lost(s, d, i)
  {
    assert TaskOk(s, i);
  }
}

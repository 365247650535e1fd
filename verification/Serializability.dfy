/** Serializability: however submissions, calls and hardware interleave, memory is at every moment what
    executing the DONE workloads atomically, one after the other in submission order, leaves, as long as
    every workload is clear of the tasks that are unfinished when it is submitted. */
module Serializability {
  import opened Words
  import opened Soc
  import opened DeviceModel
  import opened Tasks
  import opened Layout
  import opened SchedulerSpec
  import opened SchedulerSteps
  import opened Interference
  import opened Runs
  import opened MemoryModel
  import opened Refinement
  import opened Pipeline
  import opened AtomicExecution

  /** The tasks a statement is about: those from number `first` on that are no strangers. Of the earlier
      tasks and the strangers only what they may write matters, and an earlier task that is no stranger
      is terminal. */
  datatype Scope = Scope(first: nat, strangers: set<nat>) {
    predicate Includes(i: nat) {
      first <= i && i !in strangers
    }
  }

  // ---- Which tasks have to be clear of which ----

  /** Neither the external ranges nor the slot of the task meet the span. */
  predicate Clear(t: Task, span: Span) {
    Avoids(t.workload, span) && Apart(Slot(t.id), span)
  }

  /** Task `j` may write while task `i` is unfinished, or has left bytes that the reference model does not
      account for: it is a stranger, or an earlier task that is not DONE, or a later one submitted while
      `i` was unfinished. */
  predicate Meets(scope: Scope, tasks: seq<Task>, i: nat, j: nat)
    requires i < |tasks| && j < |tasks|
  {
    if j < i then j in scope.strangers || (scope.Includes(j) && !tasks[j].state.Done?)
    else i != j && !Terminal(tasks[i])
  }

  /** No workload uses the scratchpad as external memory, and none meets the destination of a task it has to
      be clear of. A task that is DONE may be read and overwritten by later ones. */
  predicate Ordered(scope: Scope, tasks: seq<Task>) {
    && (forall i: nat :: i < |tasks| && i < scope.first && i !in scope.strangers ==> Terminal(tasks[i]))
    && (forall i: nat :: i < |tasks| && scope.Includes(i) ==> Avoids(tasks[i].workload, SCRATCHPAD))
    && (forall i: nat, j: nat :: i < |tasks| && j < |tasks| && scope.Includes(i) && Meets(scope, tasks, i, j) ==>
          Clear(tasks[i], ResultSpan(tasks[j].workload)))
  }

  /** Every submission of the run leaves the tasks ordered. */
  predicate Careful(env: Env, scope: Scope, sys: System, activities: seq<Activity>)
    requires Indexed(sys.sched)
    decreases |activities|
  {
    |activities| == 0
    || ((activities[0].Submitting? ==> Ordered(scope, Act(env, sys, activities[0]).sched.tasks))
        && Careful(env, scope, Act(env, sys, activities[0]), activities[1..]))
  }

  // ---- The invariant ----

  /** The tasks of the scope that are DONE. */
  function Finishers(scope: Scope, tasks: seq<Task>): (ids: set<nat>)
    ensures forall i: nat :: i in ids <==> i < |tasks| && scope.Includes(i) && tasks[i].state.Done?
  {
    set i: nat | i < |tasks| && scope.Includes(i) && tasks[i].state.Done?
  }

  /** The memory after executing atomically, one after the other, the DONE ones of the first `n` tasks. */
  function Sequential(scope: Scope, tasks: seq<Task>, n: nat, m0: Memory): Memory {
    AtomicPrefix(WorkloadsOf(tasks), Finishers(scope, tasks), n, m0)
  }

  /** The address is in the destination of a stranger, or of a task whose copy or store has been started but
      that is not DONE. */
  predicate Unsettled(scope: Scope, tasks: seq<Task>, a: nat) {
    exists i: nat :: i < |tasks| && (i in scope.strangers || (scope.Includes(i) && Exposed(tasks[i])))
                     && Inhabits(a, ResultSpan(tasks[i].workload))
  }

  /** Settled memory outside the scratchpad is the sequential one. */
  ghost predicate Agreement(scope: Scope, tasks: seq<Task>, m0: Memory, m: Memory) {
    forall a: nat :: !Inhabits(a, SCRATCHPAD) && !Unsettled(scope, tasks, a) ==>
      m(a) == Sequential(scope, tasks, |tasks|, m0)(a)
  }

  /** An unfinished task holds what its operations make of the sources it finds after the earlier tasks. */
  predicate TaskHolds(scope: Scope, s: Sched, d: Device, i: nat, m0: Memory, m: Memory)
    requires i < |s.tasks|
  {
    || Terminal(s.tasks[i]) || Lost(s, d, i)
    || (Accepted(s.tasks[i].workload)
        && Holds(s.tasks[i].workload, i, Operations(s, d, i), Sequential(scope, s.tasks, i, m0), m))
  }

  ghost predicate AllHold(scope: Scope, s: Sched, d: Device, m0: Memory, m: Memory) {
    forall i: nat :: i < |s.tasks| && scope.Includes(i) ==> TaskHolds(scope, s, d, i, m0, m)
  }

  /** What an operation in flight reads has been the same ever since it was started. */
  predicate TransferSteady(scope: Scope, s: Sched, d: Device, base: Memory) {
    DmaBusy(d) && s.dmaOwner.Some? && scope.Includes(s.dmaOwner.value) ==>
      Steady(base, d.events, d.dmaSince, d.dma.source, d.dma.length)
  }

  predicate CommandSteady(scope: Scope, s: Sched, d: Device, base: Memory) {
    CommandBusy(d) && s.accelOwner.Some? && scope.Includes(s.accelOwner.value) ==>
      && Steady(base, d.events, d.commandSince, d.command.source0, 2 * LeftCount(CommandOperation(d.command)))
      && Steady(base, d.events, d.commandSince, d.command.source1, 2 * RightCount(CommandOperation(d.command)))
  }

  ghost predicate Serial(scope: Scope, base: Memory, m0: Memory, s: Sched, d: Device) {
    var m := Replay(base, d.events);
    && Ordered(scope, s.tasks)
    && AllHold(scope, s, d, m0, m)
    && Agreement(scope, s.tasks, m0, m)
    && TransferSteady(scope, s, d, base) && CommandSteady(scope, s, d, base)
  }

  // ---- One task writes ----

  /** An unfinished task belongs to the scope or is a stranger. */
  lemma UnfinishedIsKnown(scope: Scope, tasks: seq<Task>, i: nat)
    requires Ordered(scope, tasks) && i < |tasks| && !Terminal(tasks[i])
    ensures scope.Includes(i) || i in scope.strangers
  {
  }

  lemma SlotAvoided(w: Workload, span: Span)
    requires Avoids(w, SCRATCHPAD) && InScratchpad(span.start, span.size)
    ensures Avoids(w, span)
  {
  }

  /** What one unfinished task writes is nothing to another one. */
  lemma OthersUntouched(scope: Scope, s: Sched, i: nat, j: nat, span: Span)
    requires Structure(s) && Ordered(scope, s.tasks) && i < |s.tasks| && j < |s.tasks| && i != j
    requires !Terminal(s.tasks[i]) && !Terminal(s.tasks[j]) && scope.Includes(j) && Owns(s.tasks[i], span)
    ensures Clear(s.tasks[j], span)
  {
    UnfinishedIsKnown(scope, s.tasks, i);
    if InSlot(i, span) {
      SlotAddresses(i);
      SlotsDisjoint(i, j);
      SlotAvoided(s.tasks[j].workload, span);
    } else {
      assert Meets(scope, s.tasks, j, i);
    }
  }

  lemma SettledUntouched(scope: Scope, s: Sched, i: nat, span: Span, a: nat)
    requires Structure(s) && Ordered(scope, s.tasks) && i < |s.tasks| && !Terminal(s.tasks[i])
    requires Owns(s.tasks[i], span) && !Inhabits(a, SCRATCHPAD) && !Unsettled(scope, s.tasks, a)
    ensures !Inhabits(a, span)
  {
    UnfinishedIsKnown(scope, s.tasks, i);
    if InSlot(i, span) {
      SlotAddresses(i);
    }
  }

  lemma OtherHolds(scope: Scope, s: Sched, d: Device, d': Device, j: nat, span: Span, m0: Memory, m: Memory, m': Memory)
    requires j < |s.tasks| && s.tasks[j].id == j && Clear(s.tasks[j], span) && AgreeOutside(m, m', span)
    requires TaskHolds(scope, s, d, j, m0, m)
    requires Operations(s, d', j) == Operations(s, d, j) && Lost(s, d', j) == Lost(s, d, j)
    ensures TaskHolds(scope, s, d', j, m0, m')
  {
    if !Terminal(s.tasks[j]) && !Lost(s, d, j) {
      HoldsFrame(s.tasks[j].workload, j, Operations(s, d, j), Sequential(scope, s.tasks, j, m0), m, m', span);
    }
  }

  /** When task `i` writes what it owns, and the others are where they were, it remains to show what task `i`
      holds. */
  lemma WriteStep(scope: Scope, s: Sched, d: Device, d': Device, i: nat, span: Span, m0: Memory, m: Memory, m': Memory)
    requires Structure(s) && Ordered(scope, s.tasks) && i < |s.tasks| && !Terminal(s.tasks[i])
    requires Owns(s.tasks[i], span) && AgreeOutside(m, m', span)
    requires AllHold(scope, s, d, m0, m) && Agreement(scope, s.tasks, m0, m)
    requires forall j: nat :: j != i ==> Operations(s, d', j) == Operations(s, d, j) && Lost(s, d', j) == Lost(s, d, j)
    requires scope.Includes(i) ==> TaskHolds(scope, s, d', i, m0, m')
    ensures AllHold(scope, s, d', m0, m') && Agreement(scope, s.tasks, m0, m')
  {
    forall j: nat | j < |s.tasks| && scope.Includes(j)
      ensures TaskHolds(scope, s, d', j, m0, m')
    {
      if j != i && !Terminal(s.tasks[j]) {
        OthersUntouched(scope, s, i, j, span);
        assert TaskHolds(scope, s, d, j, m0, m);
        OtherHolds(scope, s, d, d', j, span, m0, m, m');
      }
    }
    forall a: nat | !Inhabits(a, SCRATCHPAD) && !Unsettled(scope, s.tasks, a)
      ensures m'(a) == Sequential(scope, s.tasks, |s.tasks|, m0)(a)
    {
      SettledUntouched(scope, s, i, span, a);
    }
  }

  // ---- The DMA engine writes ----

  /** Whatever an event of a transfer does, it does it in the destination range. */
  lemma TransferSpan(m: Memory, seen: Memory, q: DmaRequest, e: MemoryEvent)
    requires match e
             case Transferring(q', _) => q' == q
             case Computing(_, _) => false
             case Leaving(r, _, _) => r == DmaDone(q) || (r.DmaFault? && r.request == q)
    ensures AgreeOutside(m, Happening(m, seen, e), Span(q.destination, q.length))
  {
  }

  lemma CommandSpan(m: Memory, seen: Memory, c: Command, e: MemoryEvent)
    requires match e
             case Transferring(_, _) => false
             case Computing(c', _) => c' == c
             case Leaving(r, _, _) => r == CommandDone(c) || (r.CommandFault? && r.command == c)
    ensures AgreeOutside(m, Happening(m, seen, e), Span(c.destination, 2 * OutputCount(CommandOperation(c))))
  {
  }

  /** An event of the DMA engine leaves the operands of the command in flight alone. */
  lemma CommandStaysSteady(scope: Scope, s: Sched, d: Device, d': Device, e: MemoryEvent, span: Span, base: Memory)
    requires Sound(s, d) && Ordered(scope, s.tasks) && s.dmaOwner.Some? && CommandSteady(scope, s, d, base)
    requires Owns(s.tasks[s.dmaOwner.value], span)
    requires SameCommand(d, d') && d'.events == d.events + [e]
    requires AgreeOutside(Replay(base, d.events), Replay(base, d'.events), span)
    ensures CommandSteady(scope, s, d', base)
  {
    if CommandBusy(d) && s.accelOwner.Some? && scope.Includes(s.accelOwner.value) {
      var i, j := s.dmaOwner.value, s.accelOwner.value;
      var m, m' := Replay(base, d.events), Replay(base, d'.events);
      var o := CommandOperation(d.command);
      CommandRunning(s, d);
      assert TaskOk(s, i);
      OthersUntouched(scope, s, i, j, span);
      CommandReads(s.tasks[j], d.command, span);
      ReadFrame(m, m', span, d.command.source0, 2 * LeftCount(o));
      ReadFrame(m, m', span, d.command.source1, 2 * RightCount(o));
      SteadyAppend(base, d.events, e, d.commandSince, d.command.source0, 2 * LeftCount(o));
      SteadyAppend(base, d.events, e, d.commandSince, d.command.source1, 2 * RightCount(o));
    }
  }

  lemma TransferStaysSteady(scope: Scope, s: Sched, d: Device, d': Device, e: MemoryEvent, span: Span, base: Memory)
    requires Sound(s, d) && Ordered(scope, s.tasks) && s.accelOwner.Some? && TransferSteady(scope, s, d, base)
    requires Owns(s.tasks[s.accelOwner.value], span)
    requires SameDma(d, d') && d'.events == d.events + [e]
    requires AgreeOutside(Replay(base, d.events), Replay(base, d'.events), span)
    ensures TransferSteady(scope, s, d', base)
  {
    if DmaBusy(d) && s.dmaOwner.Some? && scope.Includes(s.dmaOwner.value) {
      var i, j := s.accelOwner.value, s.dmaOwner.value;
      var m, m' := Replay(base, d.events), Replay(base, d'.events);
      DmaRunning(s, d);
      assert TaskOk(s, i);
      OthersUntouched(scope, s, i, j, span);
      TransferReads(s.tasks[j], d.dma, span);
      ReadFrame(m, m', span, d.dma.source, d.dma.length);
      SteadyAppend(base, d.events, e, d.dmaSince, d.dma.source, d.dma.length);
    }
  }

  /** A transfer in flight has written some bytes. */
  lemma TransferringSerial(scope: Scope, s: Sched, d: Device, bytes: map<nat, Byte>, base: Memory, m0: Memory)
    requires Sound(s, d) && DmaBusy(d) && Serial(scope, base, m0, s, d)
    ensures Serial(scope, base, m0, s, d.(events := d.events + [Transferring(d.dma, bytes)]))
  {
    DmaRunning(s, d);
    var i := s.dmaOwner.value;
    var e := Transferring(d.dma, bytes);
    var d' := d.(events := d.events + [e]);
    var m, m' := Replay(base, d.events), Replay(base, d'.events);
    var span := Span(d.dma.destination, d.dma.length);
    ReplayAppend(base, d.events, e);
    TransferSpan(m, Seen(base, d.events, e), d.dma, e);
    TransferIsOwned(s.tasks[i], d.dma);
    TransferringHolds(scope, s, d, d', m0, m, m');
    WriteStep(scope, s, d, d', i, span, m0, m, m');
    CommandStaysSteady(scope, s, d, d', e, span, base);
    if scope.Includes(i) {
      if WritesEarly(d.dma) {
        ReadFrame(m, m', span, d.dma.source, d.dma.length);
      }
      SteadyAppend(base, d.events, e, d.dmaSince, d.dma.source, d.dma.length);
    }
  }

  lemma TransferringHolds(scope: Scope, s: Sched, d: Device, d': Device, m0: Memory, m: Memory, m': Memory)
    requires Sound(s, d) && DmaBusy(d) && s.dmaOwner.Some? && SameDma(d, d') && SameCommand(d, d')
    requires Ordered(scope, s.tasks) && AllHold(scope, s, d, m0, m)
    requires if WritesEarly(d.dma) then AgreeOutside(m, m', Span(d.dma.destination, d.dma.length)) else m' == m
    ensures scope.Includes(s.dmaOwner.value) ==> TaskHolds(scope, s, d', s.dmaOwner.value, m0, m')
  {
    DmaRunning(s, d);
    var i := s.dmaOwner.value;
    if scope.Includes(i) {
      assert TaskHolds(scope, s, d, i, m0, m);
      if WritesEarly(d.dma) {
        TransferringKeeps(s.tasks[i], Sequential(scope, s.tasks, i, m0), m, m', d.dma);
      }
    }
  }

  /** A transfer leaves the engine, finished or faulted. */
  lemma TransferSerial(scope: Scope, s: Sched, d: Device, v: Verdict, base: Memory, m0: Memory)
    requires Sound(s, d) && DmaBusy(d) && !v.Waiting? && Serial(scope, base, m0, s, d)
    ensures Serial(scope, base, m0, s, CompleteDma(d, v))
  {
    DmaRunning(s, d);
    DmaCompletionMoves(s, d, v);
    var i := s.dmaOwner.value;
    var d' := CompleteDma(d, v);
    var e := d'.events[|d.events|];
    var seen := Seen(base, d.events, e);
    var m, m' := Replay(base, d.events), Replay(base, d'.events);
    var span := Span(d.dma.destination, d.dma.length);
    ReplayAppend(base, d.events, e);
    TransferSpan(m, seen, d.dma, e);
    TransferIsOwned(s.tasks[i], d.dma);
    if scope.Includes(i) {
      SeenIsNow(base, d.events, e, d.dma.source, d.dma.length);
    }
    TransferredHolds(scope, s, d, d', e.operation, m0, m, seen);
    forall j: nat | j != i
      ensures Operations(s, d', j) == Operations(s, d, j) && Lost(s, d', j) == Lost(s, d, j)
    {
      DmaCompletionMovesOwner(s, d, d', j);
    }
    WriteStep(scope, s, d, d', i, span, m0, m, m');
    CommandStaysSteady(scope, s, d, d', e, span, base);
  }

  /** A finished transfer advances its owner's data by one operation; a faulted one loses it. */
  lemma TransferredHolds(scope: Scope, s: Sched, d: Device, d': Device, r: Retired, m0: Memory, m: Memory, seen: Memory)
    requires Sound(s, d) && DmaBusy(d) && s.dmaOwner.Some?
    requires Ordered(scope, s.tasks) && AllHold(scope, s, d, m0, m)
    requires r == DmaDone(d.dma) || (r.DmaFault? && r.request == d.dma)
    requires var i := s.dmaOwner.value;
      && (r.DmaDone? ==> !Lost(s, d', i) && Operations(s, d', i) == Operations(s, d, i) + 1)
      && (r.DmaFault? ==> Lost(s, d', i))
      && (scope.Includes(i) ==> SameBytes(m, seen, d.dma.source, d.dma.length))
    ensures scope.Includes(s.dmaOwner.value) ==>
      TaskHolds(scope, s, d', s.dmaOwner.value, m0, Effect(m, seen, r))
  {
    DmaRunning(s, d);
    var i := s.dmaOwner.value;
    if scope.Includes(i) && r.DmaDone? {
      assert TaskHolds(scope, s, d, i, m0, m);
      FinishedTransferCopies(m, seen, d.dma);
      TransferAdvances(s.tasks[i], Sequential(scope, s.tasks, i, m0), m, Effect(m, seen, r), d.dma);
    }
  }

  lemma DmaTickSerial(scope: Scope, s: Sched, d: Device, v: Verdict, base: Memory, m0: Memory)
    requires Sound(s, d) && Serial(scope, base, m0, s, d)
    ensures Serial(scope, base, m0, s, TickDma(d, v))
  {
    if DmaBusy(d) {
      if v.Waiting? {
        TransferringSerial(scope, s, d, v.bytes, base, m0);
      } else {
        TransferSerial(scope, s, d, v, base, m0);
      }
    }
  }

  // ---- The accelerators write ----

  lemma ComputingSerial(scope: Scope, s: Sched, d: Device, bytes: map<nat, Byte>, base: Memory, m0: Memory)
    requires Sound(s, d) && CommandBusy(d) && Serial(scope, base, m0, s, d)
    ensures Serial(scope, base, m0, s, d.(events := d.events + [Computing(d.command, bytes)]))
  {
    CommandRunning(s, d);
    var i := s.accelOwner.value;
    var e := Computing(d.command, bytes);
    var d' := d.(events := d.events + [e]);
    var m, m' := Replay(base, d.events), Replay(base, d'.events);
    var o := CommandOperation(d.command);
    var span := Span(d.command.destination, 2 * OutputCount(o));
    ReplayAppend(base, d.events, e);
    CommandSpan(m, Seen(base, d.events, e), d.command, e);
    CommandIsOwned(s.tasks[i], d.command);
    ComputingHolds(scope, s, d, d', m0, m, m');
    WriteStep(scope, s, d, d', i, span, m0, m, m');
    TransferStaysSteady(scope, s, d, d', e, span, base);
    if scope.Includes(i) {
      if ComputesEarly(d.command) {
        ReadFrame(m, m', span, d.command.source0, 2 * LeftCount(o));
        ReadFrame(m, m', span, d.command.source1, 2 * RightCount(o));
      }
      SteadyAppend(base, d.events, e, d.commandSince, d.command.source0, 2 * LeftCount(o));
      SteadyAppend(base, d.events, e, d.commandSince, d.command.source1, 2 * RightCount(o));
    }
  }

  lemma ComputingHolds(scope: Scope, s: Sched, d: Device, d': Device, m0: Memory, m: Memory, m': Memory)
    requires Sound(s, d) && CommandBusy(d) && s.accelOwner.Some? && SameDma(d, d') && SameCommand(d, d')
    requires Ordered(scope, s.tasks) && AllHold(scope, s, d, m0, m)
    requires AgreeOutside(m, m', Span(d.command.destination, 2 * OutputCount(CommandOperation(d.command))))
    ensures scope.Includes(s.accelOwner.value) ==> TaskHolds(scope, s, d', s.accelOwner.value, m0, m')
  {
    CommandRunning(s, d);
    var i := s.accelOwner.value;
    if scope.Includes(i) {
      assert TaskHolds(scope, s, d, i, m0, m);
      ComputingKeeps(s.tasks[i], d.command, Sequential(scope, s.tasks, i, m0), m, m');
    }
  }

  lemma CommandSerial(scope: Scope, s: Sched, d: Device, v: Verdict, base: Memory, m0: Memory)
    requires Sound(s, d) && CommandBusy(d) && !v.Waiting? && Serial(scope, base, m0, s, d)
    ensures Serial(scope, base, m0, s, CompleteAccelerator(d, v))
  {
    CommandRunning(s, d);
    CommandCompletionMoves(s, d, v);
    var i := s.accelOwner.value;
    var d' := CompleteAccelerator(d, v);
    var e := d'.events[|d.events|];
    var seen := Seen(base, d.events, e);
    var m, m' := Replay(base, d.events), Replay(base, d'.events);
    var o := CommandOperation(d.command);
    var span := Span(d.command.destination, 2 * OutputCount(o));
    ReplayAppend(base, d.events, e);
    CommandSpan(m, seen, d.command, e);
    CommandIsOwned(s.tasks[i], d.command);
    if scope.Includes(i) {
      SeenIsNow(base, d.events, e, d.command.source0, 2 * LeftCount(o));
      SeenIsNow(base, d.events, e, d.command.source1, 2 * RightCount(o));
    }
    CommandedHolds(scope, s, d, d', e.operation, m0, m, seen);
    forall j: nat | j != i
      ensures Operations(s, d', j) == Operations(s, d, j) && Lost(s, d', j) == Lost(s, d, j)
    {
      CommandCompletionMovesOwner(s, d, d', j);
    }
    WriteStep(scope, s, d, d', i, span, m0, m, m');
    TransferStaysSteady(scope, s, d, d', e, span, base);
  }

  /** A finished command advances its owner's data by one operation; a faulted one loses it. */
  lemma CommandedHolds(scope: Scope, s: Sched, d: Device, d': Device, r: Retired, m0: Memory, m: Memory, seen: Memory)
    requires Sound(s, d) && CommandBusy(d) && s.accelOwner.Some?
    requires Ordered(scope, s.tasks) && AllHold(scope, s, d, m0, m)
    requires r == CommandDone(d.command) || (r.CommandFault? && r.command == d.command)
    requires var i := s.accelOwner.value;
      && (r.CommandDone? ==> !Lost(s, d', i) && Operations(s, d', i) == Operations(s, d, i) + 1)
      && (r.CommandFault? ==> Lost(s, d', i))
      && (scope.Includes(i) ==> SameOperands(d.command, m, seen))
    ensures scope.Includes(s.accelOwner.value) ==>
      TaskHolds(scope, s, d', s.accelOwner.value, m0, Effect(m, seen, r))
  {
    CommandRunning(s, d);
    var i := s.accelOwner.value;
    if scope.Includes(i) && r.CommandDone? {
      assert TaskHolds(scope, s, d, i, m0, m);
      CommandAdvances(s.tasks[i], d.command, StageIndex(s.tasks[i].workload, Execute),
                      Sequential(scope, s.tasks, i, m0), m, seen, Effect(m, seen, r));
    }
  }

  lemma CommandTickSerial(scope: Scope, s: Sched, d: Device, v: Verdict, base: Memory, m0: Memory)
    requires Sound(s, d) && Serial(scope, base, m0, s, d)
    ensures Serial(scope, base, m0, s, TickAccelerator(d, v))
  {
    if CommandBusy(d) {
      if v.Waiting? {
        ComputingSerial(scope, s, d, v.bytes, base, m0);
      } else {
        CommandSerial(scope, s, d, v, base, m0);
      }
    }
  }

  // ---- Moves that leave memory alone ----

  /** As tasks proceed, less has to be clear of them. */
  lemma OrderedKept(scope: Scope, tasks: seq<Task>, tasks': seq<Task>)
    requires Ordered(scope, tasks) && |tasks'| == |tasks|
    requires forall j: nat :: j < |tasks| ==> Changes(tasks[j], tasks'[j])
    ensures Ordered(scope, tasks')
  {
    forall i: nat, j: nat | i < |tasks'| && j < |tasks'| && scope.Includes(i) && Meets(scope, tasks', i, j)
      ensures Clear(tasks'[i], ResultSpan(tasks'[j].workload))
    {
      assert Changes(tasks[i], tasks'[i]) && Changes(tasks[j], tasks'[j]);
      assert Meets(scope, tasks, i, j);
    }
  }

  lemma SameSequence(scope: Scope, tasks: seq<Task>, tasks': seq<Task>, n: nat, m0: Memory)
    requires n <= |tasks| <= |tasks'|
    requires forall j: nat :: j < n ==>
      tasks'[j].workload == tasks[j].workload && (tasks'[j].state.Done? <==> tasks[j].state.Done?)
    ensures Sequential(scope, tasks', n, m0) == Sequential(scope, tasks, n, m0)
  {
    PrefixOfMore(WorkloadsOf(tasks), WorkloadsOf(tasks'), Finishers(scope, tasks), Finishers(scope, tasks'), n, m0);
  }

  /** Nobody in the scope has finished: what everybody holds and what is settled stays. */
  lemma NobodyFinishes(scope: Scope, s: Sched, d: Device, s': Sched, d': Device, m0: Memory, m: Memory)
    requires |s'.tasks| == |s.tasks| && AllHold(scope, s, d, m0, m) && Agreement(scope, s.tasks, m0, m)
    requires forall j: nat :: j < |s.tasks| ==>
      && Changes(s.tasks[j], s'.tasks[j]) && (scope.Includes(j) && s'.tasks[j].state.Done? ==> s.tasks[j].state.Done?)
    requires forall j: nat :: Operations(s', d', j) == Operations(s, d, j) && Lost(s', d', j) == Lost(s, d, j)
    ensures AllHold(scope, s', d', m0, m) && Agreement(scope, s'.tasks, m0, m)
  {
    forall n: nat | n <= |s.tasks|
      ensures Sequential(scope, s'.tasks, n, m0) == Sequential(scope, s.tasks, n, m0)
    {
      SequenceOfScope(scope, s.tasks, s'.tasks, n, m0);
    }
    forall i: nat | i < |s'.tasks| && scope.Includes(i)
      ensures TaskHolds(scope, s', d', i, m0, m)
    {
      assert TaskHolds(scope, s, d, i, m0, m) && Changes(s.tasks[i], s'.tasks[i]);
    }
    forall a: nat | !Inhabits(a, SCRATCHPAD) && !Unsettled(scope, s'.tasks, a)
      ensures m(a) == Sequential(scope, s'.tasks, |s'.tasks|, m0)(a)
    {
      StaysSettled(scope, s.tasks, s'.tasks, a);
    }
  }

  lemma SequenceOfScope(scope: Scope, tasks: seq<Task>, tasks': seq<Task>, n: nat, m0: Memory)
    requires n <= |tasks| == |tasks'|
    requires forall j: nat :: j < |tasks| ==>
      && Changes(tasks[j], tasks'[j]) && (scope.Includes(j) && tasks'[j].state.Done? ==> tasks[j].state.Done?)
    ensures Sequential(scope, tasks', n, m0) == Sequential(scope, tasks, n, m0)
  {
    PrefixOfMore(WorkloadsOf(tasks), WorkloadsOf(tasks'), Finishers(scope, tasks), Finishers(scope, tasks'), n, m0);
  }

  lemma StaysSettled(scope: Scope, tasks: seq<Task>, tasks': seq<Task>, a: nat)
    requires |tasks'| == |tasks| && !Unsettled(scope, tasks', a)
    requires forall j: nat :: j < |tasks| ==>
      && Changes(tasks[j], tasks'[j]) && (scope.Includes(j) && tasks'[j].state.Done? ==> tasks[j].state.Done?)
    ensures !Unsettled(scope, tasks, a)
  {
  }

  // ---- A task finishes ----

  /** Task `i` and no other becomes DONE. */
  predicate Finishing(s: Sched, s': Sched, i: nat) {
    && |s'.tasks| == |s.tasks| && i < |s.tasks| && !s.tasks[i].state.Done? && s'.tasks[i].state.Done?
    && forall j: nat :: j < |s.tasks| ==>
      Changes(s.tasks[j], s'.tasks[j]) && (j != i ==> (s'.tasks[j].state.Done? <==> s.tasks[j].state.Done?))
  }

  /** It has been the last one to be executed, but its place in the sequence is that of its submission. */
  lemma SequenceWithFinisher(scope: Scope, s: Sched, s': Sched, i: nat, n: nat, m0: Memory)
    requires Structure(s) && Ordered(scope, s.tasks) && Finishing(s, s', i) && scope.Includes(i)
    requires i < n <= |s.tasks|
    ensures Accepted(s.tasks[i].workload)
    ensures Replaced(s.tasks[i].workload, Sequential(scope, s.tasks, i, m0), Sequential(scope, s.tasks, n, m0),
                     Sequential(scope, s'.tasks, n, m0))
  {
    assert TaskOk(s, i);
    var ws, chosen := WorkloadsOf(s.tasks), Finishers(scope, s.tasks);
    assert WorkloadsOf(s'.tasks) == ws;
    assert Finishers(scope, s'.tasks) == chosen + {i};
    forall k: nat | i < k < |ws| && k in chosen
      ensures Avoids(ws[k], ResultSpan(ws[i]))
    {
      assert Meets(scope, s.tasks, k, i);
    }
    ChoosingOneMore(ws, chosen, i, n, m0);
  }

  /** The reference memory matters only where the sources are. */
  lemma HoldsOf(w: Workload, id: nat, k: nat, x: Memory, x': Memory, m: Memory)
    requires Accepted(w) && Holds(w, id, k, x, m)
    requires SameBytes(x, x', w.source0, LeftBytes(w)) && SameBytes(x, x', w.source1, RightBytes(w))
    ensures Holds(w, id, k, x', m)
  {
    ReferenceOf(w, x, x');
  }

  lemma OtherHoldsAfterFinish(scope: Scope, s: Sched, d: Device, s': Sched, d': Device, i: nat, j: nat,
                              m0: Memory, m: Memory)
    requires Structure(s) && Ordered(scope, s.tasks) && Finishing(s, s', i) && scope.Includes(i)
    requires j < |s.tasks| && scope.Includes(j) && TaskHolds(scope, s, d, j, m0, m)
    requires Operations(s', d', j) == Operations(s, d, j) && Lost(s', d', j) == Lost(s, d, j)
    ensures TaskHolds(scope, s', d', j, m0, m)
  {
    assert Changes(s.tasks[j], s'.tasks[j]) && TaskOk(s, j);
    if !Terminal(s'.tasks[j]) && !Lost(s, d, j) {
      if j < i {
        SameSequence(scope, s.tasks, s'.tasks, j, m0);
      } else {
        var w := s.tasks[j].workload;
        var x, x' := Sequential(scope, s.tasks, j, m0), Sequential(scope, s'.tasks, j, m0);
        var source := Sequential(scope, s.tasks, i, m0);
        SequenceWithFinisher(scope, s, s', i, j, m0);
        assert Meets(scope, s.tasks, j, i);
        ReplacedBytes(s.tasks[i].workload, source, x, x', w.source0, LeftBytes(w));
        ReplacedBytes(s.tasks[i].workload, source, x, x', w.source1, RightBytes(w));
        HoldsOf(w, j, Operations(s, d, j), x, x', m);
      }
    }
  }

  lemma SettledBefore(scope: Scope, s: Sched, s': Sched, i: nat, a: nat)
    requires Finishing(s, s', i) && scope.Includes(i) && !Unsettled(scope, s'.tasks, a)
    requires !Inhabits(a, ResultSpan(s.tasks[i].workload))
    ensures !Unsettled(scope, s.tasks, a)
  {
  }

  /** What the finished task has written is what the sequence now has there. */
  lemma AgreementAfterFinish(scope: Scope, s: Sched, s': Sched, i: nat, m0: Memory, m: Memory)
    requires Structure(s) && Ordered(scope, s.tasks) && Finishing(s, s', i) && scope.Includes(i)
    requires Agreement(scope, s.tasks, m0, m)
    requires Accepted(s.tasks[i].workload) && Written(s.tasks[i].workload, Sequential(scope, s.tasks, i, m0), m)
    ensures Agreement(scope, s'.tasks, m0, m)
  {
    var w, n := s.tasks[i].workload, |s.tasks|;
    SequenceWithFinisher(scope, s, s', i, n, m0);
    forall a: nat | !Inhabits(a, SCRATCHPAD) && !Unsettled(scope, s'.tasks, a)
      ensures m(a) == Sequential(scope, s'.tasks, n, m0)(a)
    {
      if !Inhabits(a, ResultSpan(w)) {
        SettledBefore(scope, s, s', i, a);
      }
      ReplacedByte(w, Sequential(scope, s.tasks, i, m0), Sequential(scope, s.tasks, n, m0),
                   Sequential(scope, s'.tasks, n, m0), m, a);
    }
  }

  /** A memory that holds the result and is as before elsewhere agrees with the replacement. */
  lemma ReplacedByte(w: Workload, source: Memory, x: Memory, x': Memory, m: Memory, a: nat)
    requires Accepted(w) && Replaced(w, source, x, x') && Written(w, source, m)
    requires !Inhabits(a, ResultSpan(w)) ==> m(a) == x(a)
    ensures m(a) == x'(a)
  {
    if Inhabits(a, ResultSpan(w)) {
      assert ReadBytes(m, w.destination, ResultBytes(w))[a - w.destination] == m(a);
    }
  }

  // ---- Every move ----

  lemma MoveKeepsStructure(env: Env, m: Move, s: Sched, d: Device, s': Sched, d': Device)
    requires Sound(s, d) && Moves(env, m, s, d, s', d')
    ensures Structure(s')
  {
    match m
    case HardwareTicks =>
    case DmaWakes => ServeDmaKeepsStructure(s, Some(DmaStatus(d)));
    case AcceleratorWakes => ServeAcceleratorKeepsStructure(s, Some(CommandStatus(d)));
    case DmaLaunches(i) => LaunchKeepsStructure(s, i);
    case AcceleratorLaunches(i) => LaunchKeepsStructure(s, i);
    case Unseen => CountersKeepStructure(s, s');
  }

  /** What has just been started is steady. */
  lemma SteadyAtStart(base: Memory, events: seq<MemoryEvent>, address: nat, n: nat)
    ensures Steady(base, events, |events|, address, n)
  {
    assert events[..|events|] == events;
  }

  lemma TransferQuietlySteady(env: Env, scope: Scope, m: Move, s: Sched, d: Device, s': Sched, d': Device, base: Memory)
    requires Sound(s, d) && Moves(env, m, s, d, s', d') && !m.HardwareTicks? && TransferSteady(scope, s, d, base)
    ensures TransferSteady(scope, s', d', base)
  {
    match m
    case DmaWakes =>
      assert TaskOk(s, s.dmaOwner.value);
    case AcceleratorWakes =>
      assert TaskOk(s, s.accelOwner.value);
    case DmaLaunches(i) =>
      SteadyAtStart(base, d'.events, d'.dma.source, d'.dma.length);
    case AcceleratorLaunches(i) =>
      assert s'.dmaOwner == s.dmaOwner;
    case Unseen =>
  }

  lemma CommandQuietlySteady(env: Env, scope: Scope, m: Move, s: Sched, d: Device, s': Sched, d': Device, base: Memory)
    requires Sound(s, d) && Moves(env, m, s, d, s', d') && !m.HardwareTicks? && CommandSteady(scope, s, d, base)
    ensures CommandSteady(scope, s', d', base)
  {
    match m
    case DmaWakes =>
      assert TaskOk(s, s.dmaOwner.value);
    case AcceleratorWakes =>
      assert TaskOk(s, s.accelOwner.value);
    case DmaLaunches(i) =>
      assert s'.accelOwner == s.accelOwner;
    case AcceleratorLaunches(i) =>
      var o := CommandOperation(d'.command);
      SteadyAtStart(base, d'.events, d'.command.source0, 2 * LeftCount(o));
      SteadyAtStart(base, d'.events, d'.command.source1, 2 * RightCount(o));
    case Unseen =>
  }

  lemma TaskFinishes(scope: Scope, s: Sched, d: Device, s': Sched, d': Device, i: nat, m0: Memory, m: Memory)
    requires Structure(s) && Structure(s') && Finishing(s, s', i) && scope.Includes(i)
    requires Ordered(scope, s.tasks) && AllHold(scope, s, d, m0, m) && Agreement(scope, s.tasks, m0, m)
    requires forall j: nat :: Operations(s', d', j) == Operations(s, d, j) && Lost(s', d', j) == Lost(s, d, j)
    ensures AllHold(scope, s', d', m0, m) && Agreement(scope, s'.tasks, m0, m)
  {
    FinishedHolds(scope, s, d, s', d', i, m0, m);
    forall j: nat | j < |s'.tasks| && scope.Includes(j)
      ensures TaskHolds(scope, s', d', j, m0, m)
    {
      assert TaskHolds(scope, s, d, j, m0, m);
      OtherHoldsAfterFinish(scope, s, d, s', d', i, j, m0, m);
    }
    AgreementAfterFinish(scope, s, s', i, m0, m);
  }

  lemma FinishedHolds(scope: Scope, s: Sched, d: Device, s': Sched, d': Device, i: nat, m0: Memory, m: Memory)
    requires Structure(s) && Structure(s') && Finishing(s, s', i) && scope.Includes(i)
    requires Operations(s', d', i) == Operations(s, d, i) && Lost(s', d', i) == Lost(s, d, i)
    requires TaskHolds(scope, s, d, i, m0, m)
    ensures Accepted(s.tasks[i].workload) && Written(s.tasks[i].workload, Sequential(scope, s.tasks, i, m0), m)
  {
    DoneOperations(s', d', i);
    assert Changes(s.tasks[i], s'.tasks[i]);
  }

  /** Everybody's progress is the same, tasks change as they may, and only `finisher` may become DONE. */
  ghost predicate Quietly(s: Sched, d: Device, s': Sched, d': Device, finisher: Option<nat>) {
    && |s'.tasks| == |s.tasks|
    && (forall j: nat :: Operations(s', d', j) == Operations(s, d, j) && Lost(s', d', j) == Lost(s, d, j))
    && (forall j: nat :: j < |s.tasks| ==>
          && Changes(s.tasks[j], s'.tasks[j])
          && (s'.tasks[j].state.Done? && !s.tasks[j].state.Done? ==> finisher == Some(j)))
  }

  lemma QuietMovesQuietly(env: Env, mv: Move, s: Sched, d: Device, s': Sched, d': Device)
    requires Sound(s, d) && Moves(env, mv, s, d, s', d') && !mv.HardwareTicks?
    ensures Quietly(s, d, s', d', s.dmaOwner)
  {
    forall j: nat
      ensures |s'.tasks| == |s.tasks|
      ensures Operations(s', d', j) == Operations(s, d, j) && Lost(s', d', j) == Lost(s, d, j)
    {
      QuietMove(env, mv, s, d, s', d', j);
    }
    forall j: nat | j < |s.tasks|
      ensures Changes(s.tasks[j], s'.tasks[j])
      ensures s'.tasks[j].state.Done? && !s.tasks[j].state.Done? ==> s.dmaOwner == Some(j)
    {
      QuietTask(env, mv, s, d, s', d', j);
    }
  }

  lemma QuietHoldsAndAgrees(scope: Scope, s: Sched, d: Device, s': Sched, d': Device, m0: Memory, m: Memory)
    requires Structure(s) && Structure(s') && Quietly(s, d, s', d', s.dmaOwner)
    requires Ordered(scope, s.tasks) && AllHold(scope, s, d, m0, m) && Agreement(scope, s.tasks, m0, m)
    ensures Ordered(scope, s'.tasks) && AllHold(scope, s', d', m0, m) && Agreement(scope, s'.tasks, m0, m)
  {
    OrderedKept(scope, s.tasks, s'.tasks);
    if i: nat :| i < |s.tasks| && scope.Includes(i) && s'.tasks[i].state.Done? && !s.tasks[i].state.Done? {
      TaskFinishes(scope, s, d, s', d', i, m0, m);
    } else {
      NobodyFinishes(scope, s, d, s', d', m0, m);
    }
  }

  lemma TickSerial(env: Env, scope: Scope, s: Sched, d: Device, base: Memory, m0: Memory)
    requires Sound(s, d) && Serial(scope, base, m0, s, d)
    ensures Serial(scope, base, m0, s, Tick(env, d))
  {
    TickParts(env, s, d);
    var step := env(d.time);
    DmaTickSerial(scope, s, d, step.dma, base, m0);
    var d1 := TickDma(d, step.dma);
    CommandTickSerial(scope, s, d1, step.accelerator, base, m0);
    var d2 := TickAccelerator(d1, step.accelerator);
    UnseenSerial(scope, s, d2, Tick(env, d), base, m0);
  }

  lemma UnseenSerial(scope: Scope, s: Sched, d: Device, d': Device, base: Memory, m0: Memory)
    requires Sound(s, d) && SameProgress(s, d, d') && Serial(scope, base, m0, s, d)
    ensures Serial(scope, base, m0, s, d')
  {
    var m := Replay(base, d.events);
    forall i: nat | i < |s.tasks| && scope.Includes(i)
      ensures TaskHolds(scope, s, d', i, m0, m)
    {
      assert TaskHolds(scope, s, d, i, m0, m);
      UnseenKeepsProgress(s, d, s, d', i);
    }
  }

  lemma MoveSerial(env: Env, scope: Scope, m: Move, s: Sched, d: Device, s': Sched, d': Device,
                   base: Memory, m0: Memory)
    requires Sound(s, d) && Moves(env, m, s, d, s', d') && Serial(scope, base, m0, s, d)
    ensures Serial(scope, base, m0, s', d')
  {
    if m.HardwareTicks? {
      TickSerial(env, scope, s, d, base, m0);
    } else {
      MoveKeepsStructure(env, m, s, d, s', d');
      QuietMove(env, m, s, d, s', d', 0);
      QuietMovesQuietly(env, m, s, d, s', d');
      QuietHoldsAndAgrees(scope, s, d, s', d', m0, Replay(base, d.events));
      TransferQuietlySteady(env, scope, m, s, d, s', d', base);
      CommandQuietlySteady(env, scope, m, s, d, s', d', base);
    }
  }

  // ---- Submissions ----

  /** Whatever has to be clear of an address's writer need not fear for the address. */
  lemma ClearIsSettled(scope: Scope, tasks: seq<Task>, t: Task, a: nat)
    requires Ordered(scope, tasks + [t]) && scope.Includes(|tasks|)
    requires !Disjoint(t.workload.source0, LeftBytes(t.workload), a, 1)
          || !Disjoint(t.workload.source1, RightBytes(t.workload), a, 1)
    ensures !Inhabits(a, SCRATCHPAD) && !Unsettled(scope, tasks, a)
  {
    var all := tasks + [t];
    assert all[|tasks|] == t;
    forall i: nat | i < |tasks| && (i in scope.strangers || (scope.Includes(i) && Exposed(tasks[i])))
      ensures !Inhabits(a, ResultSpan(tasks[i].workload))
    {
      assert all[i] == tasks[i];
      assert Meets(scope, all, |tasks|, i);
    }
  }

  /** A new task finds its sources as the earlier ones leave them. */
  lemma SourcesAgree(scope: Scope, tasks: seq<Task>, t: Task, m0: Memory, m: Memory)
    requires Ordered(scope, tasks + [t]) && scope.Includes(|tasks|) && Agreement(scope, tasks, m0, m)
    ensures var x := Sequential(scope, tasks, |tasks|, m0); var w := t.workload;
      SameBytes(x, m, w.source0, LeftBytes(w)) && SameBytes(x, m, w.source1, RightBytes(w))
  {
    var w := t.workload;
    var x := Sequential(scope, tasks, |tasks|, m0);
    forall a: nat | w.source0 <= a < w.source0 + LeftBytes(w) || w.source1 <= a < w.source1 + RightBytes(w)
      ensures m(a) == x(a)
    {
      ClearIsSettled(scope, tasks, t, a);
    }
    SameRange(x, m, w.source0, LeftBytes(w));
    SameRange(x, m, w.source1, RightBytes(w));
  }

  lemma SameRange(x: Memory, m: Memory, address: nat, n: nat)
    requires forall a: nat :: address <= a < address + n ==> m(a) == x(a)
    ensures SameBytes(x, m, address, n)
  {
  }

  /** A task just submitted. */
  predicate Appended(s: Sched, s': Sched, t: Task) {
    && s' == s.(tasks := s.tasks + [t]) && t.id == |s.tasks| && t.state.Ready?
    && Accepted(t.workload) && t.phase == InitialPhase(t.workload)
  }

  lemma NewTaskHolds(scope: Scope, s: Sched, d: Device, s': Sched, t: Task, m0: Memory, m: Memory)
    requires Structure(s) && Appended(s, s', t) && Ordered(scope, s'.tasks) && Agreement(scope, s.tasks, m0, m)
    requires scope.Includes(|s.tasks|)
    ensures TaskHolds(scope, s', d, |s.tasks|, m0, m)
  {
    assert s.dmaOwner != Some(|s.tasks|) && s.accelOwner != Some(|s.tasks|);
    SameSequence(scope, s.tasks, s'.tasks, |s.tasks|, m0);
    SourcesAgree(scope, s.tasks, t, m0, m);
  }

  lemma AppendedSequence(scope: Scope, s: Sched, s': Sched, t: Task, m0: Memory)
    requires Appended(s, s', t)
    ensures Sequential(scope, s'.tasks, |s'.tasks|, m0) == Sequential(scope, s.tasks, |s.tasks|, m0)
  {
    SameSequence(scope, s.tasks, s'.tasks, |s.tasks|, m0);
    PrefixSkips(WorkloadsOf(s'.tasks), Finishers(scope, s'.tasks), |s.tasks|, m0);
  }

  lemma AppendedHold(scope: Scope, s: Sched, d: Device, s': Sched, t: Task, m0: Memory, m: Memory)
    requires Structure(s) && AllHold(scope, s, d, m0, m) && Agreement(scope, s.tasks, m0, m)
    requires Appended(s, s', t) && Ordered(scope, s'.tasks)
    ensures AllHold(scope, s', d, m0, m)
  {
    forall i: nat | i < |s'.tasks| && scope.Includes(i)
      ensures TaskHolds(scope, s', d, i, m0, m)
    {
      if i < |s.tasks| {
        assert TaskHolds(scope, s, d, i, m0, m);
        OldTaskHolds(scope, s, d, s', t, i, m0, m);
      } else {
        NewTaskHolds(scope, s, d, s', t, m0, m);
      }
    }
  }

  lemma OldTaskHolds(scope: Scope, s: Sched, d: Device, s': Sched, t: Task, i: nat, m0: Memory, m: Memory)
    requires i < |s.tasks| && Appended(s, s', t) && TaskHolds(scope, s, d, i, m0, m)
    ensures TaskHolds(scope, s', d, i, m0, m)
  {
    SameSequence(scope, s.tasks, s'.tasks, i, m0);
  }

  lemma AppendedAgreement(scope: Scope, s: Sched, s': Sched, t: Task, m0: Memory, m: Memory)
    requires Agreement(scope, s.tasks, m0, m) && Appended(s, s', t)
    ensures Agreement(scope, s'.tasks, m0, m)
  {
    AppendedSequence(scope, s, s', t, m0);
    forall a: nat | !Inhabits(a, SCRATCHPAD) && !Unsettled(scope, s'.tasks, a)
      ensures m(a) == Sequential(scope, s'.tasks, |s'.tasks|, m0)(a)
    {
      assert forall i: nat :: i < |s.tasks| ==> s'.tasks[i] == s.tasks[i];
    }
  }

  lemma AppendedSerial(scope: Scope, s: Sched, d: Device, s': Sched, t: Task, base: Memory, m0: Memory)
    requires Sound(s, d) && Serial(scope, base, m0, s, d) && Appended(s, s', t) && Ordered(scope, s'.tasks)
    ensures Serial(scope, base, m0, s', d)
  {
    AppendedHold(scope, s, d, s', t, m0, Replay(base, d.events));
    AppendedAgreement(scope, s, s', t, m0, Replay(base, d.events));
  }

  lemma SubmissionSerial(scope: Scope, s: Sched, d: Device, r: Request, base: Memory, m0: Memory)
    requires Sound(s, d) && Serial(scope, base, m0, s, d) && Ordered(scope, Submit(s, r).0.tasks)
    ensures Serial(scope, base, m0, Submit(s, r).0, d)
  {
    var s' := Submit(s, r).0;
    if |s'.tasks| != |s.tasks| {
      SubmitKeepsStructure(s, r);
      assert TaskOk(s', |s.tasks|);
      AppendedSerial(scope, s, d, s', s'.tasks[|s.tasks|], base, m0);
    }
  }

  // ---- Every careful run ----

  ghost function Serially(scope: Scope, base: Memory, m0: Memory): Property {
    (s, d) => Serial(scope, base, m0, s, d)
  }

  lemma SerialIsStable(env: Env, scope: Scope, base: Memory, m0: Memory)
    ensures Stable(env, Serially(scope, base, m0))
  {
    var P := Serially(scope, base, m0);
    forall m, s, d, s', d' | Sound(s, d) && Moves(env, m, s, d, s', d') && P(s, d)
      ensures P(s', d')
    {
      MoveSerial(env, scope, m, s, d, s', d', base, m0);
    }
  }

  lemma ActSerial(env: Env, scope: Scope, s: Sched, d: Device, act: Activity, base: Memory, m0: Memory)
    requires Sound(s, d) && Serial(scope, base, m0, s, d)
    requires act.Submitting? ==> Ordered(scope, Act(env, System(s, d), act).sched.tasks)
    ensures var sys' := Act(env, System(s, d), act); Serial(scope, base, m0, sys'.sched, sys'.device)
  {
    match act
    case Submitting(r) => SubmissionSerial(scope, s, d, r, base, m0);
    case Calling =>
      SerialIsStable(env, scope, base, m0);
      CallSurvives(Serially(scope, base, m0), env, s, d);
  }

  lemma {:induction false} RunSerial(env: Env, scope: Scope, sys: System, activities: seq<Activity>,
                                     base: Memory, m0: Memory)
    requires Sound(sys.sched, sys.device) && Serially(scope, base, m0)(sys.sched, sys.device)
    requires Careful(env, scope, sys, activities)
    ensures var end := Run(env, sys, activities); Serially(scope, base, m0)(end.sched, end.device)
    decreases |activities|
  {
    if |activities| != 0 {
      ActIsStep(env, sys, activities[0]);
      ActSerial(env, scope, sys.sched, sys.device, activities[0], base, m0);
      RunSerial(env, scope, Act(env, sys, activities[0]), activities[1..], base, m0);
    }
  }

  lemma StartsSerial(scope: Scope, sys: System, base: Memory)
    requires Sound(sys.sched, sys.device) && scope.first == |sys.sched.tasks| && Ordered(scope, sys.sched.tasks)
    ensures Serial(scope, base, Replay(base, sys.device.events), sys.sched, sys.device)
  {
    var tasks := sys.sched.tasks;
    assert Finishers(scope, tasks) == {};
    NothingChosen(WorkloadsOf(tasks), |tasks|, Replay(base, sys.device.events));
    forall i: nat | i < |tasks|
      ensures TaskOk(sys.sched, i) && !scope.Includes(i)
    {
    }
  }

  /** Serializability, from any linked state: whatever is in flight, whatever the operations read and write
      before they are complete, and however submissions and calls go on, settled memory outside the
      scratchpad is what executing the DONE workloads of the scope one after the other makes of the
      memory at the start. */
  lemma RunsAreSerializable(env: Env, scope: Scope, sys: System, activities: seq<Activity>, base: Memory, a: nat)
    requires Sound(sys.sched, sys.device) && scope.first == |sys.sched.tasks| && Ordered(scope, sys.sched.tasks)
    requires Careful(env, scope, sys, activities)
    requires !Inhabits(a, SCRATCHPAD) && !Unsettled(scope, Run(env, sys, activities).sched.tasks, a)
    ensures var end := Run(env, sys, activities);
      Replay(base, end.device.events)(a)
        == Atomically(WorkloadsOf(end.sched.tasks), Finishers(scope, end.sched.tasks),
                      Replay(base, sys.device.events))(a)
  {
    StartsSerial(scope, sys, base);
    RunSerial(env, scope, sys, activities, base, Replay(base, sys.device.events));
  }
}

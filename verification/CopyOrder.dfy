/** A workload of DMA copies only, submitted up front, runs in the order of a stable sort by priority. */
module CopyOrder {
  import opened Words
  import opened DeviceModel
  import opened Tasks
  import opened SchedulerSpec
  import opened SchedulerSteps
  import opened Priority

  // ---- The reference: insertion sort of the task ids ----

  predicate Below(order: seq<nat>, n: nat) {
    forall k :: 0 <= k < |order| ==> order[k] < n
  }

  /** Insert id `x` after every id of equal or higher priority. */
  function InsertByPriority(order: seq<nat>, tasks: seq<Task>, x: nat): seq<nat>
    requires x < |tasks| && Below(order, |tasks|)
  {
    if |order| == 0 then [x]
    else if tasks[x].priority > tasks[order[0]].priority then [x] + order
    else [order[0]] + InsertByPriority(order[1..], tasks, x)
  }

  /** The ids 0..n-1 by descending priority, equal priorities in submission order. */
  function StableSort(tasks: seq<Task>, n: nat): (order: seq<nat>)
    requires n <= |tasks|
    ensures forall i: nat :: i in order <==> i < n
    ensures |order| == n && Below(order, n)
  {
    if n == 0 then []
    else
      var rest := StableSort(tasks, n - 1);
      InsertKeepsIds(rest, tasks, n - 1);
      var order := InsertByPriority(rest, tasks, n - 1);
      assert Below(order, n) by {
        assert forall k :: 0 <= k < |order| ==> order[k] in order;
      }
      order
  }

  lemma {:induction false} InsertKeepsIds(order: seq<nat>, tasks: seq<Task>, x: nat)
    requires x < |tasks| && Below(order, |tasks|)
    ensures var r := InsertByPriority(order, tasks, x);
      |r| == |order| + 1 && forall y: nat :: y in r <==> y == x || y in order
  {
    if |order| != 0 && tasks[x].priority <= tasks[order[0]].priority {
      InsertKeepsIds(order[1..], tasks, x);
      assert order == [order[0]] + order[1..];
    }
  }

  predicate Ranked(order: seq<nat>, tasks: seq<Task>) {
    && Below(order, |tasks|)
    && (forall j, k :: 0 <= j < k < |order| ==> Outranks(tasks, order[j], order[k]))
  }

  lemma {:induction false} InsertKeepsRanked(order: seq<nat>, tasks: seq<Task>, x: nat)
    requires x < |tasks| && Ranked(order, tasks) && Below(order, x)
    ensures Ranked(InsertByPriority(order, tasks, x), tasks)
  {
    InsertKeepsIds(order, tasks, x);
    if |order| != 0 && tasks[x].priority <= tasks[order[0]].priority {
      InsertKeepsIds(order[1..], tasks, x);
      InsertKeepsRanked(order[1..], tasks, x);
      var r := InsertByPriority(order[1..], tasks, x);
      forall k | 0 <= k < |r|
        ensures Outranks(tasks, order[0], r[k])
      {
        assert r[k] in r;
        if r[k] != x {
          var m :| 0 <= m < |order[1..]| && order[1..][m] == r[k];
          assert Outranks(tasks, order[0], order[m + 1]);
        }
      }
    }
  }

  lemma {:induction false} StableSortRanked(tasks: seq<Task>, n: nat)
    requires n <= |tasks|
    ensures Ranked(StableSort(tasks, n), tasks)
  {
    if n != 0 {
      StableSortRanked(tasks, n - 1);
      InsertKeepsRanked(StableSort(tasks, n - 1), tasks, n - 1);
    }
  }

  /** A ranked sequence is determined by its elements. */
  lemma {:induction false} RankedUnique(a: seq<nat>, b: seq<nat>, tasks: seq<Task>)
    requires Ranked(a, tasks) && Ranked(b, tasks)
    requires forall y: nat :: y in a <==> y in b
    ensures a == b
  {
    SameEmptiness(a, b);
    SameEmptiness(b, a);
    if |a| != 0 {
      assert a[0] in b && b[0] in a;
      assert a[0] == b[0];
      forall y: nat
        ensures y in a[1..] <==> y in b[1..]
      {
        TailMembers(a, tasks, y);
        TailMembers(b, tasks, y);
      }
      RankedUnique(a[1..], b[1..], tasks);
      assert a == [a[0]] + a[1..] && b == [b[0]] + b[1..];
    }
  }

  lemma SameEmptiness(a: seq<nat>, b: seq<nat>)
    requires forall y: nat :: y in a ==> y in b
    ensures |a| != 0 ==> |b| != 0
  {
    if |a| != 0 {
      var y := a[0];
      assert y in a;
    }
  }

  lemma TailMembers(a: seq<nat>, tasks: seq<Task>, y: nat)
    requires Ranked(a, tasks) && |a| > 0
    ensures y in a[1..] <==> y in a && y != a[0]
  {
    if y in a && y != a[0] {
      var k :| 0 <= k < |a| && a[k] == y;
      assert a[1..][k - 1] == y;
    }
    if y in a[1..] {
      var k :| 0 <= k < |a[1..]| && a[1..][k] == y;
      assert a[k + 1] == y && Outranks(tasks, a[0], a[k + 1]);
    }
  }

  // ---- The invariant of a copy workload ----

  /** The ids in `order` whose task is DONE, in that order. */
  function Finished(order: seq<nat>, tasks: seq<Task>): seq<nat>
    requires forall k :: 0 <= k < |order| ==> order[k] < |tasks|
    decreases |order|
  {
    if |order| == 0 then []
    else
      var n := |order| - 1;
      Finished(order[..n], tasks) + (if tasks[order[n]].state.Done? then [order[n]] else [])
  }

  lemma {:induction false} FinishedUnmoved(order: seq<nat>, tasks: seq<Task>, tasks': seq<Task>)
    requires forall k :: 0 <= k < |order| ==> order[k] < |tasks| && order[k] < |tasks'|
    requires forall k :: 0 <= k < |order| ==> (tasks'[order[k]].state.Done? <==> tasks[order[k]].state.Done?)
    ensures Finished(order, tasks') == Finished(order, tasks)
    decreases |order|
  {
    if |order| != 0 {
      FinishedUnmoved(order[..|order| - 1], tasks, tasks');
    }
  }

  predicate CopiesOnly(s: Sched) {
    forall i :: 0 <= i < |s.tasks| ==> s.tasks[i].workload.kind.DmaCopy?
  }

  /** The dispatch order holds exactly the tasks that are no longer ready. */
  predicate HoldsStarted(s: Sched) {
    forall i :: 0 <= i < |s.tasks| ==> (i in s.dispatchOrder <==> !s.tasks[i].state.Ready?)
  }

  /** Every dispatched task outranks every ready one. */
  predicate ReadyComeAfter(s: Sched)
    requires Below(s.dispatchOrder, |s.tasks|)
  {
    forall k, i :: 0 <= k < |s.dispatchOrder| && 0 <= i < |s.tasks| && s.tasks[i].state.Ready? ==>
      Outranks(s.tasks, s.dispatchOrder[k], i)
  }

  /** The owner of the DMA engine was dispatched last. */
  predicate OwnerIsLast(s: Sched) {
    s.dmaOwner.Some? ==> |s.dispatchOrder| > 0 && s.dispatchOrder[|s.dispatchOrder| - 1] == s.dmaOwner.value
  }

  /** The invariant; its last part: the DONE tasks have completed in dispatch order. */
  predicate Ordered(s: Sched) {
    && CopiesOnly(s)
    && Ranked(s.dispatchOrder, s.tasks)
    && HoldsStarted(s) && ReadyComeAfter(s) && OwnerIsLast(s)
    && s.completionOrder == Finished(s.dispatchOrder, s.tasks)
  }

  /** Task `i` alone changes, keeping its priority, and does not become ready. */
  predicate OnlyProgress(s: Sched, s': Sched, i: nat) {
    && i < |s.tasks| && |s'.tasks| == |s.tasks|
    && s'.tasks == s.tasks[i := s'.tasks[i]]
    && s'.tasks[i].priority == s.tasks[i].priority
    && s'.tasks[i].workload == s.tasks[i].workload
    && !s'.tasks[i].state.Ready?
  }

  lemma RankedUnmoved(order: seq<nat>, tasks: seq<Task>, tasks': seq<Task>)
    requires Ranked(order, tasks) && |tasks'| == |tasks|
    requires forall i :: 0 <= i < |tasks| ==> tasks'[i].priority == tasks[i].priority
    ensures Ranked(order, tasks')
  {
  }

  lemma CopyProgress(s: Sched, i: nat, status: CompletionStatus)
    requires Structure(s) && CopiesOnly(s) && s.dmaOwner == Some(i)
    ensures var s' := ServeDma(s, Some(status));
      && OnlyProgress(s, s', i) && !s.tasks[i].state.Done?
      && s'.dispatchOrder == s.dispatchOrder
      && s'.completionOrder == s.completionOrder + (if s'.tasks[i].state.Done? then [i] else [])
  {
    assert TaskOk(s, i);
  }

  lemma ServeDmaOrdered(s: Sched, event: Option<CompletionStatus>)
    requires Structure(s) && Ordered(s)
    ensures Ordered(ServeDma(s, event))
  {
    if event.Some? && s.dmaOwner.Some? {
      var i := s.dmaOwner.value;
      var s' := ServeDma(s, event);
      assert TaskOk(s, i);
      CopyProgress(s, i, event.value);
      RankedUnmoved(s.dispatchOrder, s.tasks, s'.tasks);
      CompletedLast(s, s', i);
    }
  }

  /** When the task dispatched last finishes or fails, the completion order stays the finished part of
      the dispatch order. */
  lemma CompletedLast(s: Sched, s': Sched, i: nat)
    requires Ordered(s) && OnlyProgress(s, s', i) && !s.tasks[i].state.Done?
    requires |s.dispatchOrder| > 0 && s.dispatchOrder[|s.dispatchOrder| - 1] == i
    ensures Finished(s.dispatchOrder, s'.tasks) == s.completionOrder + (if s'.tasks[i].state.Done? then [i] else [])
  {
    var n := |s.dispatchOrder| - 1;
    forall k | 0 <= k < n
      ensures s.dispatchOrder[k] != i
    {
      assert Outranks(s.tasks, s.dispatchOrder[k], s.dispatchOrder[n]);
    }
    FinishedUnmoved(s.dispatchOrder[..n], s.tasks, s'.tasks);
  }

  lemma LaunchOrdered(s: Sched, i: nat)
    requires Structure(s) && Ordered(s) && SelectReady(s) == Some(i)
    ensures Ordered(Launch(s, i))
  {
    var s' := Launch(s, i);
    assert TaskOk(s, i);
    assert OnlyProgress(s, s', i) && s'.dmaOwner == Some(i) && !s'.tasks[i].state.Done?;
    assert s'.dispatchOrder == s.dispatchOrder + [i] && s'.completionOrder == s.completionOrder;
    LaunchRanks(s, i);
    AppendedOrdered(s, s', i);
  }

  lemma AppendedOrdered(s: Sched, s': Sched, i: nat)
    requires Ordered(s) && OnlyProgress(s, s', i) && s.tasks[i].state.Ready?
    requires s'.dispatchOrder == s.dispatchOrder + [i] && s'.completionOrder == s.completionOrder
    requires s'.dmaOwner == Some(i) && !s'.tasks[i].state.Done?
    requires forall j :: 0 <= j < |s.tasks| && j != i && s.tasks[j].state.Ready? ==> Outranks(s.tasks, i, j)
    ensures Ordered(s')
  {
    RankedUnmoved(s.dispatchOrder, s.tasks, s'.tasks);
    AppendedRanked(s, s', i);
    assert s'.dispatchOrder[..|s.dispatchOrder|] == s.dispatchOrder;
    FinishedUnmoved(s.dispatchOrder, s.tasks, s'.tasks);
  }

  lemma AppendedRanked(s: Sched, s': Sched, i: nat)
    requires Ordered(s) && OnlyProgress(s, s', i) && s.tasks[i].state.Ready?
    requires s'.dispatchOrder == s.dispatchOrder + [i]
    requires forall j :: 0 <= j < |s.tasks| && j != i && s.tasks[j].state.Ready? ==> Outranks(s.tasks, i, j)
    ensures Ranked(s'.dispatchOrder, s'.tasks) && HoldsStarted(s') && ReadyComeAfter(s')
  {
    RankedUnmoved(s.dispatchOrder, s.tasks, s'.tasks);
    forall k | 0 <= k < |s.dispatchOrder|
      ensures Outranks(s'.tasks, s.dispatchOrder[k], i)
    {
      assert Outranks(s.tasks, s.dispatchOrder[k], i);
    }
  }

  /** The selected copy outranks every other ready copy, for they all need the DMA engine. */
  lemma LaunchRanks(s: Sched, i: nat)
    requires Structure(s) && CopiesOnly(s) && SelectReady(s) == Some(i)
    ensures forall j :: 0 <= j < |s.tasks| && j != i && s.tasks[j].state.Ready? ==> Outranks(s.tasks, i, j)
  {
    assert TaskOk(s, i);
    SelectionIsBest(s, i);
    forall j | 0 <= j < |s.tasks| && j != i && s.tasks[j].state.Ready?
      ensures Candidate(s, j)
    {
      assert TaskOk(s, j);
    }
  }

  lemma OrderedIgnoresCounters(s: Sched, s': Sched)
    requires SameTasks(s, s') && s'.dispatchOrder == s.dispatchOrder && s'.completionOrder == s.completionOrder
    requires Ordered(s)
    ensures Ordered(s')
  {
  }

  /** Copies never own the accelerator. */
  lemma CopiesLeaveAccelerator(s: Sched)
    requires Structure(s) && CopiesOnly(s)
    ensures s.accelOwner.None?
  {
    forall i | 0 <= i < |s.tasks|
      ensures s.accelOwner != Some(i)
    {
      assert TaskOk(s, i);
    }
  }

  lemma CallOrdered(s: Sched, ev: Events)
    requires Structure(s) && Ordered(s)
    ensures Ordered(StepCall(s, ev))
  {
    var s1 := CountCall(s);
    CountersKeepStructure(s, s1);
    OrderedIgnoresCounters(s, s1);
    ServeDmaKeepsStructure(s1, ev.dma);
    ServeDmaOrdered(s1, ev.dma);
    var s2 := ServeDma(s1, ev.dma);
    CopiesLeaveAccelerator(s2);
    var s3 := ServeTimer(s2, ev.timer);
    OrderedIgnoresCounters(s2, s3);
    CountersKeepStructure(s2, s3);
    ProceedOrdered(s3);
  }

  lemma ProceedOrdered(s: Sched)
    requires Structure(s) && Ordered(s)
    ensures Ordered(Proceed(s))
  {
    match SelectReady(s)
    case None => OrderedIgnoresCounters(s, Proceed(s));
    case Some(i) => LaunchOrdered(s, i);
  }

  lemma {:induction false} CallsOrdered(s: Sched, evs: seq<Events>)
    requires Structure(s) && Ordered(s)
    ensures Structure(Exec(s, Calls(evs))) && Ordered(Exec(s, Calls(evs)))
    decreases |evs|
  {
    if |evs| != 0 {
      CallsTail(evs);
      CallOrdered(s, evs[0]);
      StepKeepsStructure(s, Call(evs[0]));
      CallsOrdered(StepCall(s, evs[0]), evs[1..]);
    }
  }

  lemma ProceedKeepsPriorities(s: Sched, j: nat)
    requires Indexed(s) && j < |s.tasks|
    ensures j < |Proceed(s).tasks| && Proceed(s).tasks[j].priority == s.tasks[j].priority
  {
  }

  lemma CallKeepsPriorities(s: Sched, ev: Events, j: nat)
    requires Structure(s) && j < |s.tasks|
    ensures j < |StepCall(s, ev).tasks| && StepCall(s, ev).tasks[j].priority == s.tasks[j].priority
  {
    ServedPriorities(s, ev, j);
    ProceedKeepsPriorities(Served(s, ev), j);
  }

  lemma {:induction false} CallsKeepPriorities(s: Sched, evs: seq<Events>)
    requires Structure(s)
    ensures |Exec(s, Calls(evs)).tasks| == |s.tasks|
    ensures forall j :: 0 <= j < |s.tasks| ==> Exec(s, Calls(evs)).tasks[j].priority == s.tasks[j].priority
    decreases |evs|
  {
    if |evs| != 0 {
      CallsTail(evs);
      StepKeepsStructure(s, Call(evs[0]));
      forall j | 0 <= j < |s.tasks|
        ensures StepCall(s, evs[0]).tasks[j].priority == s.tasks[j].priority
      {
        CallKeepsPriorities(s, evs[0], j);
      }
      CallsKeepPriorities(StepCall(s, evs[0]), evs[1..]);
    }
  }

  /** Any complete run of copies submitted up front dispatches them in the order of the stable sort by
      descending priority, and completes them in that order with the failed ones left out. */
  lemma CopiesRunInStableOrder(s: Sched, evs: seq<Events>)
    requires Structure(s) && CopiesOnly(s) && s.dispatchOrder == [] && s.completionOrder == []
    requires forall i :: 0 <= i < |s.tasks| ==> s.tasks[i].state.Ready?
    requires AllTerminal(Exec(s, Calls(evs)))
    ensures var done := Exec(s, Calls(evs));
      && done.dispatchOrder == StableSort(s.tasks, |s.tasks|)
      && Below(done.dispatchOrder, |done.tasks|)
      && done.completionOrder == Finished(done.dispatchOrder, done.tasks)
  {
    forall i | 0 <= i < |s.tasks|
      ensures s.dmaOwner != Some(i)
    {
      assert TaskOk(s, i);
    }
    CallsOrdered(s, evs);
    var done := Exec(s, Calls(evs));
    CallsKeepPriorities(s, evs);
    RankedUnmoved(done.dispatchOrder, done.tasks, s.tasks);
    StableSortRanked(s.tasks, |s.tasks|);
    RankedUnique(done.dispatchOrder, StableSort(s.tasks, |s.tasks|), s.tasks);
  }
}

/** The mixed workload of the SoC bench meets the assumptions of the correctness theorem. */
module Bench {
  import opened Words
  import opened Soc
  import opened DeviceModel
  import opened Tasks
  import opened Layout
  import opened SchedulerSpec
  import opened Runs
  import opened Liveness
  import opened MemoryModel
  import opened Refinement
  import opened RequestMeaning
  import opened Correctness
  import opened Recording
  import opened SchedulerSteps

  const PAGE_BYTES := 0x1000

  /** The bench places every buffer at the start of its own page of external memory. */
  function Page(k: nat): U32
    requires k < 17
  {
    DRAM_BASE_ADDR + 0x1_0000 + k * PAGE_BYTES
  }

  function MixedWorkload(): (requests: seq<Request>)
    ensures |requests| == 7
  {
    [CopyRequest(Page(0), Page(1), 13, 1),
     VectorAddRequest(Page(2), Page(3), Page(4), 6, 6, false, true),
     ReluOrClampRequest(Page(5), 0, Page(6), 5, false, 3, true),
     ReluOrClampRequest(Page(7), Page(8), Page(9), 5, true, 4, false),
     ReduceSumRequest(Page(10), Page(11), 5, 5, true, true),
     ReduceMaxRequest(Page(12), Page(13), 6, 2, false),
     GemmRequest(Page(14), Page(15), Page(16), 2, 2, 3, 7, false, false)]
  }

  /** The pages of the two sources and the destination of each request. */
  function LeftPage(i: nat): nat { [0, 2, 5, 7, 10, 12, 14][if i < 7 then i else 0] }

  function RightPage(i: nat): nat { [0, 3, 5, 8, 10, 12, 15][if i < 7 then i else 0] }

  function ResultPage(i: nat): nat { [1, 4, 6, 9, 11, 13, 16][if i < 7 then i else 0] }

  predicate UsesPages(w: Workload, i: nat) {
    && Accepted(w)
    && w.source0 == Page(LeftPage(i)) && LeftBytes(w) <= 16
    && (HasSource1(w) ==> w.source1 == Page(RightPage(i)))
    && (!HasSource1(w) ==> RightBytes(w) == 0) && RightBytes(w) <= 16
    && w.destination == Page(ResultPage(i)) && ResultBytes(w) <= 16
  }

  lemma MixedUsesPages(i: nat)
    requires i < 7
    ensures WorkloadOf(MixedWorkload()[i]).Success? && UsesPages(WorkloadOf(MixedWorkload()[i]).value, i)
  {
    if i == 0 {
    } else if i == 1 {
    } else if i == 2 {
    } else if i == 3 {
    } else if i == 4 {
    } else if i == 5 {
    } else {
    }
  }

  lemma PagesApart(k: nat, l: nat, m: nat, n: nat)
    requires k < 17 && l < 17 && k != l && m <= PAGE_BYTES && n <= PAGE_BYTES
    ensures Disjoint(Page(k), m, Page(l), n)
  {
  }

  lemma PagesDistinct(i: nat, j: nat)
    requires i < 7 && j < 7
    ensures LeftPage(i) != ResultPage(j) && RightPage(i) != ResultPage(j) && (i != j ==> ResultPage(i) != ResultPage(j))
  {
  }

  lemma UsersOfPagesAvoid(w: Workload, i: nat, v: Workload, j: nat)
    requires i < 7 && j < 7 && i != j && UsesPages(w, i) && UsesPages(v, j)
    ensures Avoids(w, ResultSpan(v))
  {
    PagesDistinct(i, j);
    PagesApart(LeftPage(i), ResultPage(j), LeftBytes(w), ResultBytes(v));
    PagesApart(RightPage(i), ResultPage(j), RightBytes(w), ResultBytes(v));
    PagesApart(ResultPage(i), ResultPage(j), ResultBytes(w), ResultBytes(v));
  }

  lemma PageIsExternal(k: nat, n: nat)
    requires k < 17 && n <= 16
    ensures WellPlacedRange(Page(k), n) && Disjoint(Page(k), n, SCRATCHPAD.start, SCRATCHPAD.size)
  {
  }

  lemma UsersOfPagesArePlaced(w: Workload, i: nat)
    requires i < 7 && UsesPages(w, i)
    ensures Avoids(w, SCRATCHPAD) && WellPlaced(w)
  {
    PagesDistinct(i, i);
    PageIsExternal(LeftPage(i), LeftBytes(w));
    PageIsExternal(RightPage(i), RightBytes(w));
    PageIsExternal(ResultPage(i), ResultBytes(w));
    PagesApart(LeftPage(i), ResultPage(i), LeftBytes(w), ResultBytes(w));
  }

  /** The bench's requests are acceptable, well placed and isolated. */
  lemma MixedWorkloadFits()
    ensures Acceptable(MixedWorkload())
    ensures AllWellPlaced(WorkloadsFor(MixedWorkload())) && Isolated(WorkloadsFor(MixedWorkload()))
  {
    forall i: nat | i < 7
      ensures WorkloadOf(MixedWorkload()[i]).Success? && UsesPages(WorkloadOf(MixedWorkload()[i]).value, i)
    {
      MixedUsesPages(i);
    }
    var ws := WorkloadsFor(MixedWorkload());
    forall i: nat, j: nat | i < 7 && j < 7 && i != j
      ensures Avoids(ws[i], ResultSpan(ws[j]))
    {
      UsersOfPagesAvoid(ws[i], i, ws[j], j);
    }
    forall i: nat | i < 7
      ensures Avoids(ws[i], SCRATCHPAD) && WellPlaced(ws[i])
    {
      UsersOfPagesArePlaced(ws[i], i);
    }
  }

  lemma StagesStep(ws: seq<Workload>, n: nat, before: nat)
    requires n < |ws| && StagesOf(ws[..n]) == before
    ensures StagesOf(ws[..n + 1]) == before + StageCount(ws[n])
  {
    assert ws[..n + 1][..n] == ws[..n];
  }

  function Stages(i: nat): nat { [1, 4, 3, 4, 3, 3, 4][if i < 7 then i else 0] }

  lemma MixedStageCount(i: nat)
    requires i < 7
    ensures WorkloadOf(MixedWorkload()[i]).Success? && StageCount(WorkloadOf(MixedWorkload()[i]).value) == Stages(i)
  {
    MixedUsesPages(i);
    if i == 0 {
    } else if i == 1 {
    } else if i == 2 {
    } else if i == 3 {
    } else if i == 4 {
    } else if i == 5 {
    } else {
    }
  }

  lemma SevenStages(ws: seq<Workload>)
    requires |ws| == 7 && forall i: nat :: i < 7 ==> StageCount(ws[i]) == Stages(i)
    ensures StagesOf(ws) == 22
  {
    StagesStep(ws, 0, 0);
    StagesStep(ws, 1, 1);
    StagesStep(ws, 2, 5);
    StagesStep(ws, 3, 8);
    StagesStep(ws, 4, 12);
    StagesStep(ws, 5, 15);
    StagesStep(ws, 6, 18);
    assert ws[..7] == ws;
  }

  /** The seven workloads have 1 + 4 + 3 + 4 + 3 + 3 + 4 operations. */
  lemma MixedStages()
    ensures AllAccepted(MixedWorkload()) && StagesOf(WorkloadsFor(MixedWorkload())) == 22
  {
    forall i: nat | i < 7
      ensures WorkloadOf(MixedWorkload()[i]).Success? && StageCount(WorkloadOf(MixedWorkload()[i]).value) == Stages(i)
    {
      MixedStageCount(i);
    }
    SevenStages(WorkloadsFor(MixedWorkload()));
  }

  const GEMM_TASK := 6

  lemma GemmGoesFirst(first: nat)
    requires first < 7 && forall j :: 0 <= j < 7 && j != first ==> Precedes(MixedWorkload(), first, j)
    ensures first == GEMM_TASK
  {
    assert first != GEMM_TASK ==> Precedes(MixedWorkload(), first, GEMM_TASK);
  }

  /** The bench's scheduler expectations, for every data, interference and timing: after 1 + 28 * bound calls
      all seven tasks are DONE with a completion time, GEMM was dispatched first, the completion order
      has seven entries, and each destination holds what its reference model computes. */
  lemma MixedWorkloadIsServed(env: Env, d: Device, interval: U32, bound: nat, n: nat, base: Memory)
    requires Idle(d) && Fair(env, bound) && bound >= 1 && FaultFree(env) && n >= 1 + 28 * bound
    ensures var end := Run(env, Started(env, d, interval), Submissions(MixedWorkload()) + Only(n));
      && |end.sched.tasks| == 7
      && (forall i :: 0 <= i < 7 ==> end.sched.tasks[i].state.Done? && end.sched.tasks[i].completedAt != 0)
      && end.sched.dispatchOrder != [] && end.sched.dispatchOrder[0] == GEMM_TASK
      && |end.sched.completionOrder| == 7
    ensures var end := Run(env, Started(env, d, interval), Submissions(MixedWorkload()) + Only(n));
      var m0, m := Replay(base, d.events), Replay(base, end.device.events);
      && AllAccepted(MixedWorkload())
      && forall i :: 0 <= i < 7 ==> Delivered(MixedWorkload()[i], m0, m) && Fulfilled(MixedWorkload()[i], m0, m)
  {
    var requests := MixedWorkload();
    var activities := Submissions(requests);
    MixedWorkloadFits();
    SubmissionsRequest(requests);
    RequestsAreServed(env, d, interval, activities, bound, n, base);
    MixedSchedule(env, d, interval, bound, n);
    var tasks := Run(env, Started(env, d, interval), activities + Only(n)).sched.tasks;
    forall i | 0 <= i < 7
      ensures tasks[i].completedAt != 0
    {
      DoneTimes(env, d, interval, activities + Only(n), i);
    }
  }

  lemma MixedSchedule(env: Env, d: Device, interval: U32, bound: nat, n: nat)
    requires Idle(d) && Fair(env, bound) && bound >= 1 && FaultFree(env) && n >= 1 + 28 * bound
    ensures var s := Run(env, Started(env, d, interval), Submissions(MixedWorkload()) + Only(n)).sched;
      s.dispatchOrder != [] && s.dispatchOrder[0] == GEMM_TASK && |s.completionOrder| == 7
  {
    var requests := MixedWorkload();
    MixedWorkloadFits();
    FirstIsBest(env, d, interval, requests, n);
    GemmGoesFirst(Run(env, Started(env, d, interval), Submissions(requests) + Only(n)).sched.dispatchOrder[0]);
    SubmittedState(env, d, interval, requests);
    EnoughCalls(Run(env, Started(env, d, interval), Submissions(requests)).sched.tasks, bound, n);
    LaterCalls(env, d, interval, Submissions(requests), n);
    EverythingIsDone(env, d, interval, Submissions(requests), bound, n);
  }

  /** The bench also expects a stall. That one depends on the timing: it is met exactly when some task is
      still unfinished after 23 calls. */
  lemma MixedWorkloadStalls(env: Env, d: Device, interval: U32, bound: nat, n: nat)
    requires Idle(d) && Fair(env, bound) && bound >= 1 && FaultFree(env) && n >= 1 + 28 * bound
    ensures var start := Started(env, d, interval);
      var stalled := Run(env, start, Submissions(MixedWorkload()) + Only(n)).sched.stalls != 0;
      stalled <==> !AllTerminal(Run(env, start, Submissions(MixedWorkload()) + Only(23)).sched)
  {
    MixedWorkloadFits();
    MixedStages();
    StallsExactly(env, d, interval, MixedWorkload(), bound, n);
  }

  /** The environment alone decides it in one direction: if the transfer that the first call starts is still in
      flight at the first two accesses of the second call, the bench's expectation is met. */
  lemma MixedWorkloadStallsOnSlowHardware(env: Env, d: Device, interval: U32, mid: System, n: nat)
    requires Idle(d) && n >= 2 && mid == Run(env, Started(env, d, interval), Submissions(MixedWorkload()))
    ensures var t := RunOnce(env, mid).system.device.time;
      Waited(env, DmaEngine, t, t + 2) ==> Run(env, mid, Only(n)).sched.stalls != 0
  {
    MixedWorkloadFits();
    SlowHardwareStalls(env, d, interval, MixedWorkload(), mid, n);
  }

  function ImmediateHardware(): Env {
    (t: nat) => EnvStep(Finish(map[]), Finish(map[]), false, 0)
  }

  /** It fails on hardware that finishes every operation by the next register access. */
  lemma MixedWorkloadMayNotStall(d: Device, interval: U32, n: nat)
    requires Idle(d)
    ensures var env := ImmediateHardware();
      && Fair(env, 1) && FaultFree(env)
      && Run(env, Started(env, d, interval), Submissions(MixedWorkload()) + Only(n)).sched.stalls == 0
  {
    MixedWorkloadFits();
    EagerHardwareNeverStalls(ImmediateHardware(), d, interval, MixedWorkload(), n);
  }
}

/** The ordering guarantees carried to runs from boot. */
module BootedOrders {
  import opened Words
  import opened DeviceModel
  import opened Tasks
  import opened SchedulerSpec
  import opened SchedulerSteps
  import opened Protocol
  import opened Priority
  import opened CopyOrder
  import opened Runs
  import opened Liveness
  import opened Correctness

  predicate OnlyCopies(requests: seq<Request>) {
    forall i :: 0 <= i < |requests| ==> requests[i].CopyRequest?
  }

  lemma CopiesSubmitted(env: Env, d: Device, interval: U32, requests: seq<Request>)
    requires Idle(d) && Acceptable(requests) && OnlyCopies(requests)
    ensures CopiesOnly(Run(env, Started(env, d, interval), Submissions(requests)).sched)
  {
    SubmittedState(env, d, interval, requests);
    var tasks := Run(env, Started(env, d, interval), Submissions(requests)).sched.tasks;
    forall i | 0 <= i < |tasks|
      ensures tasks[i].workload.kind.DmaCopy?
    {
      assert WorkloadsFor(requests)[i] == tasks[i].workload;
    }
  }

  /** Copies submitted after boot: once all are terminal, whatever the interference and whichever of them
      faulted, they have been dispatched in the order of the stable sort by descending priority, and
      completed in that order with the failed ones left out. */
  lemma CopiesFromBoot(env: Env, d: Device, interval: U32, requests: seq<Request>, n: nat)
    requires Idle(d) && Acceptable(requests) && OnlyCopies(requests)
    requires AllTerminal(Run(env, Started(env, d, interval), Submissions(requests) + Only(n)).sched)
    ensures var submitted := Run(env, Started(env, d, interval), Submissions(requests)).sched.tasks;
      var end := Run(env, Started(env, d, interval), Submissions(requests) + Only(n)).sched;
      && |submitted| == |requests|
      && (forall i :: 0 <= i < |requests| ==> submitted[i].priority == requests[i].priority)
      && end.dispatchOrder == StableSort(submitted, |requests|)
      && Below(end.dispatchOrder, |end.tasks|)
      && end.completionOrder == Finished(end.dispatchOrder, end.tasks)
  {
    SubmittedState(env, d, interval, requests);
    CopiesSubmitted(env, d, interval, requests);
    LaterCalls(env, d, interval, Submissions(requests), n);
    var mid := Run(env, Started(env, d, interval), Submissions(requests));
    RunOfCalls(env, mid, n);
    EmptyCompletions(env, d, interval, requests);
    CopiesRunInStableOrder(mid.sched, EventRun(env, mid, n));
  }

  lemma EmptyCompletions(env: Env, d: Device, interval: U32, requests: seq<Request>)
    requires Idle(d)
    ensures Run(env, Started(env, d, interval), Submissions(requests)).sched.completionOrder == []
  {
    BootLinks(env, d, interval);
    SubmissionsAreFresh(env, Started(env, d, interval), requests);
  }

  /** From `s`, with completions served in `s1`, to `s'`: task `h` is dispatched if its resource is free once
      completions are served; otherwise the resource keeps its owner and `h` stays as it is. */
  predicate GoesFirst(s: Sched, s1: Sched, s': Sched, h: nat) {
    && h < |s1.tasks| && h < |s'.tasks|
    && var phase := s1.tasks[h].phase;
       if OwnerFor(s1, phase).None?
       then s'.dispatchOrder == s.dispatchOrder + [h] && OwnerFor(s', phase) == Some(h)
       else s'.tasks[h] == s1.tasks[h] && OwnerFor(s', phase) == OwnerFor(s, phase)
  }

  /** Priority in every call of every run from boot: it serves first a task of strictly highest priority that is
      ready once completions are served, even if the call itself has woken it. */
  lemma PriorityFromBoot(env: Env, d: Device, interval: U32, activities: seq<Activity>, h: nat)
    requires Idle(d)
    requires var sys := Run(env, Started(env, d, interval), activities);
      Top(sys.sched, h) && Served(sys.sched, CallEvents(env, sys.device)).tasks[h].state.Ready?
    ensures var sys := Run(env, Started(env, d, interval), activities);
      GoesFirst(sys.sched, Served(sys.sched, CallEvents(env, sys.device)),
                Run(env, Started(env, d, interval), activities + Only(1)).sched, h)
  {
    LaterCalls(env, d, interval, activities, 1);
    var sys := Run(env, Started(env, d, interval), activities);
    OneCallLess(env, sys, 1);
    RunOnceExact(env, sys.sched, sys.device);
    PriorityStep(sys.sched, CallEvents(env, sys.device), h);
  }
}

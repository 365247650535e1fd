/** The tasks of a run are the accepted requests, in submission order, with their workloads and priorities. */
module Recording {
  import opened Words
  import opened Soc
  import opened DeviceModel
  import opened Tasks
  import opened SchedulerSpec
  import opened SchedulerSteps
  import opened Protocol
  import opened Interference
  import opened Runs

  /** What never changes about a task. */
  datatype Identity = Identity(workload: Workload, priority: U32)

  function Identities(tasks: seq<Task>): (ids: seq<Identity>)
    ensures |ids| == |tasks|
  {
    seq(|tasks|, i requires 0 <= i < |tasks| => Identity(tasks[i].workload, tasks[i].priority))
  }

  lemma ServingKeepsIdentities(s: Sched, event: Option<CompletionStatus>)
    requires Structure(s)
    ensures Identities(ServeDma(s, event).tasks) == Identities(s.tasks)
    ensures Identities(ServeAccelerator(s, event).tasks) == Identities(s.tasks)
  {
  }

  lemma ProceedingKeepsIdentities(s: Sched)
    requires Structure(s)
    ensures Identities(Proceed(s).tasks) == Identities(s.tasks)
  {
  }

  lemma CallKeepsIdentities(env: Env, s: Sched, d: Device)
    requires Sound(s, d)
    ensures Identities(RunOnce(env, System(s, d)).system.sched.tasks) == Identities(s.tasks)
  {
    RunOnceExact(env, s, d);
    StepKeepsIdentities(s, CallEvents(env, d));
  }

  lemma StepKeepsIdentities(s: Sched, ev: Events)
    requires Structure(s)
    ensures Identities(StepCall(s, ev).tasks) == Identities(s.tasks)
  {
    var s1 := CountCall(s);
    CountersKeepStructure(s, s1);
    ServingKeepsIdentities(s1, ev.dma);
    ServeDmaKeepsStructure(s1, ev.dma);
    ServingKeepsIdentities(ServeDma(s1, ev.dma), ev.accelerator);
    ServedKeepsStructure(s, ev);
    ProceedingKeepsIdentities(Served(s, ev));
  }

  /** The requests submitted in the course of the activities. */
  function RequestsOf(activities: seq<Activity>): seq<Request> {
    if |activities| == 0 then []
    else
      (match activities[0]
       case Submitting(r) => [r]
       case Calling => [])
      + RequestsOf(activities[1..])
  }

  predicate AllAccepted(requests: seq<Request>) {
    forall i :: 0 <= i < |requests| ==> WorkloadOf(requests[i]).Success?
  }

  function IdentitiesOf(requests: seq<Request>): (ids: seq<Identity>)
    requires AllAccepted(requests)
    ensures |ids| == |requests|
  {
    seq(|requests|, i requires 0 <= i < |requests| => Identity(WorkloadOf(requests[i]).value, requests[i].priority))
  }

  lemma SubmissionRecords(s: Sched, r: Request)
    requires |s.tasks| < TASK_SLOT_COUNT && WorkloadOf(r).Success?
    ensures Identities(Submit(s, r).0.tasks) == Identities(s.tasks) + [Identity(WorkloadOf(r).value, r.priority)]
  {
  }

  lemma FirstRequests(activities: seq<Activity>)
    requires |activities| != 0
    ensures RequestsOf(activities) == RequestsOf([activities[0]]) + RequestsOf(activities[1..])
  {
  }

  lemma IdentitiesOfParts(a: seq<Request>, b: seq<Request>)
    requires AllAccepted(a + b)
    ensures AllAccepted(a) && AllAccepted(b) && IdentitiesOf(a + b) == IdentitiesOf(a) + IdentitiesOf(b)
  {
    assert forall i :: 0 <= i < |a| ==> (a + b)[i] == a[i];
    assert forall i :: 0 <= i < |b| ==> (a + b)[|a| + i] == b[i];
  }

  lemma ActRecords(env: Env, sys: System, a: Activity)
    requires Sound(sys.sched, sys.device) && AllAccepted(RequestsOf([a]))
    requires |sys.sched.tasks| + |RequestsOf([a])| <= TASK_SLOT_COUNT
    ensures Identities(Act(env, sys, a).sched.tasks) == Identities(sys.sched.tasks) + IdentitiesOf(RequestsOf([a]))
  {
    match a
    case Submitting(r) =>
      assert RequestsOf([a])[0] == r;
      SubmissionRecords(sys.sched, r);
    case Calling => CallKeepsIdentities(env, sys.sched, sys.device);
  }

  lemma Associate(a: seq<Identity>, b: seq<Identity>, c: seq<Identity>)
    ensures (a + b) + c == a + (b + c)
  {
  }

  lemma RunsOn(env: Env, sys: System, activities: seq<Activity>, next: System)
    requires Indexed(sys.sched) && |activities| != 0 && next == Act(env, sys, activities[0])
    ensures Run(env, sys, activities) == Run(env, next, activities[1..])
  {
  }

  /** However submissions and calls alternate, every accepted request that fits the table becomes one task,
      in submission order, with the workload of its entry point and its priority. */
  lemma {:induction false} RunRecords(env: Env, sys: System, activities: seq<Activity>)
    requires Sound(sys.sched, sys.device) && AllAccepted(RequestsOf(activities))
    requires |sys.sched.tasks| + |RequestsOf(activities)| <= TASK_SLOT_COUNT
    ensures Identities(Run(env, sys, activities).sched.tasks)
         == Identities(sys.sched.tasks) + IdentitiesOf(RequestsOf(activities))
    decreases |activities|
  {
    if |activities| != 0 {
      var first, rest := RequestsOf([activities[0]]), RequestsOf(activities[1..]);
      FirstRequests(activities);
      IdentitiesOfParts(first, rest);
      ActIsStep(env, sys, activities[0]);
      ActRecords(env, sys, activities[0]);
      var next := Act(env, sys, activities[0]);
      RunRecords(env, next, activities[1..]);
      Associate(Identities(sys.sched.tasks), IdentitiesOf(first), IdentitiesOf(rest));
      RunsOn(env, sys, activities, next);
    }
  }

  lemma {:induction false} OnlyRequestsNothing(n: nat)
    ensures RequestsOf(Only(n)) == []
  {
    if n != 0 {
      assert Only(n)[0] == Calling && Only(n)[1..] == Only(n - 1);
      OnlyRequestsNothing(n - 1);
    }
  }

  /** Calls alone change no task's identity. */
  lemma CallsKeepIdentities(env: Env, sys: System, n: nat)
    requires Sound(sys.sched, sys.device)
    ensures Identities(Run(env, sys, Only(n)).sched.tasks) == Identities(sys.sched.tasks)
  {
    OnlyRequestsNothing(n);
    RunRecords(env, sys, Only(n));
  }

  lemma {:induction false} SubmissionsRequest(requests: seq<Request>)
    ensures RequestsOf(Submissions(requests)) == requests
  {
    if |requests| != 0 {
      assert Submissions(requests)[0] == Submitting(requests[0]);
      assert Submissions(requests)[1..] == Submissions(requests[1..]);
      SubmissionsRequest(requests[1..]);
    }
  }
}

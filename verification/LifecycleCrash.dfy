/** Crashes between statements, and handlers interleaved at statement granularity.

    Single statements can break the lifecycle invariant; a weaker one survives every statement, and startup
    reconciliation turns it back into the full invariant. */
module LifecycleCrash {
  import opened Wrappers
  import opened Text
  import opened Executions
  import opened Lifecycle
  import opened LifecycleRuns
  import JobQueue

  /** What every single statement keeps. */
  ghost predicate Weak(s: State) {
    && (forall b :: b in s.bindings ==> b.executionId in s.execs)
    && (forall ref :: ref in s.activations ==> s.activations[ref] in s.execs)
    && (forall ref :: ref in s.suspensions ==>
          s.suspensions[ref].executionId in s.execs && s.execs[s.suspensions[ref].executionId].reference == ref)
    && AllLocal(s) && JobQueue.QueueValid(s.jobs) && LaunchesKnown(s)
  }

  lemma InvIsWeak(s: State)
    requires Inv(s)
    ensures Weak(s)
  {}

  /** What a handler knows when it issues a statement: the executions it names exist, and it finishes only jobs
      it holds. */
  ghost predicate CallSound(s: State, c: Call) {
    match c
    case InsertExecution(_, e) => e.backend == LOCAL
    case Activate(_, id) => id in s.execs
    case ReplaceBindings(id, wanted) => id in s.execs && forall b :: b in wanted ==> b.executionId == id
    case Suspend(reference, x) => x.executionId in s.execs && s.execs[x.executionId].reference == reference
    case Queue(op) => JobQueue.Allowed(s.jobs, op) && (op.EnqueueOp? && op.input.kind == LAUNCH ==> NewTarget(s, op))
    case _ => true
  }

  /** A launch job is enqueued for a stored execution that has none yet. */
  ghost predicate NewTarget(s: State, op: JobQueue.Op)
    requires op.EnqueueOp?
  {
    var id := Target(JobQueue.NewJob(op.input, op.freshId, op.now));
    id in s.execs && forall j :: IsLaunch(s.jobs, j) ==> Target(s.jobs[j]) != id
  }

  lemma CallKeepsWeak(s: State, c: Call)
    requires Weak(s) && CallSound(s, c)
    ensures Weak(Apply(s, c))
  {
    hide JobQueue.QueueValid, JobQueue.Allowed, Target, JobQueue.Step, LaunchesKnown;
    if c.Queue? {
      JobQueue.StepKeeps(s.jobs, c.op);
      if c.op.EnqueueOp? { EnqueueKeepsKnown(s, c.op); } else { OtherOpKeepsKnown(s, c.op); }
    } else {
      KnownStays(s, Apply(s, c));
      RouteCallKeeps(s, c);
    }
  }

  lemma RouteCallKeeps(s: State, c: Call)
    requires Weak(s) && CallSound(s, c) && !c.Queue?
    ensures var t := Apply(s, c);
            && (forall b :: b in t.bindings ==> b.executionId in t.execs)
            && (forall ref :: ref in t.activations ==> t.activations[ref] in t.execs)
            && (forall ref :: ref in t.suspensions ==>
                  t.suspensions[ref].executionId in t.execs && t.execs[t.suspensions[ref].executionId].reference == ref)
            && AllLocal(t) && t.jobs == s.jobs && s.execs.Keys <= t.execs.Keys
  {
    hide JobQueue.QueueValid, LaunchesKnown;
    ExecutionsKept(s, c);
    hide Updated, AllLocal;
  }

  /** No statement drops an execution, moves one to another backend, or changes its reference. */
  lemma ExecutionsKept(s: State, c: Call)
    requires AllLocal(s) && CallSound(s, c) && !c.Queue?
    ensures var t := Apply(s, c);
            && AllLocal(t)
            && forall id :: id in s.execs ==> id in t.execs && t.execs[id].reference == s.execs[id].reference
  {}

  lemma OtherOpKeepsKnown(s: State, op: JobQueue.Op)
    requires JobQueue.QueueValid(s.jobs) && LaunchesKnown(s) && JobQueue.Allowed(s.jobs, op) && !op.EnqueueOp?
    ensures LaunchesKnown(s.(jobs := JobQueue.Step(s.jobs, op)))
  {
    hide JobQueue.QueueValid, JobQueue.Allowed, Target, JobQueue.Step;
    OpReopensNothing(s.jobs, op);
    SameTargets(s.jobs, JobQueue.Step(s.jobs, op));
    KnownStays(s, s.(jobs := JobQueue.Step(s.jobs, op)));
  }

  lemma EnqueueKeepsKnown(s: State, op: JobQueue.Op)
    requires LaunchesKnown(s) && op.EnqueueOp? && (op.input.kind == LAUNCH ==> NewTarget(s, op))
    ensures LaunchesKnown(s.(jobs := JobQueue.Step(s.jobs, op)))
  {
    var t := s.(jobs := JobQueue.Step(s.jobs, op));
    var job := JobQueue.NewJob(op.input, op.freshId, op.now);
    assert job.kind == op.input.kind;
    hide Target, JobQueue.NewJob, Blank;
    assert t.jobs == s.jobs || (job.jobId !in s.jobs && t.jobs == s.jobs[job.jobId := job]);
    hide JobQueue.Step;
    forall j | IsLaunch(t.jobs, j)
      ensures (j in s.jobs && IsLaunch(s.jobs, j) && t.jobs[j] == s.jobs[j]) || t.jobs[j] == job
    {}
  }

  /** Statements of any number of handlers, in any order, each sound when it is issued. */
  ghost predicate AllSound(s: State, calls: seq<Call>) {
    forall k :: 0 <= k < |calls| ==> CallSound(After(s, calls[..k]), calls[k])
  }

  lemma {:induction false} InterleavingKeepsWeak(s: State, calls: seq<Call>)
    requires Weak(s) && AllSound(s, calls)
    ensures Weak(After(s, calls))
  {
    hide Weak, CallSound, Apply;
    if calls != [] {
      var n := |calls| - 1;
      forall k | 0 <= k < n ensures CallSound(After(s, calls[..n][..k]), calls[..n][k]) {
        assert calls[..n][..k] == calls[..k];
      }
      InterleavingKeepsWeak(s, calls[..n]);
      CallKeepsWeak(After(s, calls[..n]), calls[n]);
    }
  }

  /** What startup reconciliation leaves behind. */
  ghost predicate Reconciled(before: State, t: State) {
    && Inv(t)
    && t.bindings == {} && t.activations == map[] && t.suspensions == before.suspensions
    && t.execs.Keys == before.execs.Keys
    && (forall id :: id in t.execs ==> !Live(t.execs[id].status))
    && (forall id :: id in t.execs ==>
          t.execs[id] == if before.execs[id].status in {"launch_requested", "starting", "healthy"}
                         then before.execs[id].(status := "stopped") else before.execs[id])
    && t.jobs.Keys == before.jobs.Keys
    && (forall j :: j in t.jobs ==> !(t.jobs[j].queue == QUEUE && t.jobs[j].status == "running"))
    && (forall j :: j in t.jobs ==> Freed(before.jobs[j], t.jobs[j]))
  }

  /** A running job of the worker's queue waits again, with its attempts, time and payload; any other is unchanged. */
  predicate Freed(a: JobQueue.Job, b: JobQueue.Job) {
    if a.queue == "realization-execution" && a.status == "running" then
      && b.status == "pending" && b.lockedBy.None? && b.lockedAt.None?
      && b == a.(status := "pending", lockedBy := None, lockedAt := None, lastError := b.lastError)
      && (a.lastError.Some? && a.lastError.value != "" ==> b.lastError == a.lastError)
    else b == a
  }

  lemma ReconcileJobs(jobs: JobQueue.Jobs)
    ensures var jobs' := JobQueue.AllReset(jobs, QUEUE, RESTARTED);
            && jobs'.Keys == jobs.Keys
            && (forall j :: j in jobs' ==> !(jobs'[j].queue == QUEUE && jobs'[j].status == "running"))
            && (forall j :: j in jobs' ==> Freed(jobs[j], jobs'[j]))
  {}

  /** Reconciliation needs only the weak invariant to restore the whole one. */
  lemma ReconcileRestores(s: State)
    requires Weak(s)
    ensures Reconciled(s, After(s, RESTART_CALLS))
  {
    hide RoutesValid, JobQueue.QueueValid, Target, After, JobQueue.AllReset, Open;
    RestartComesTo(s);
    var t := After(s, RESTART_CALLS);
    ReconcileJobs(s.jobs);
    UnroutedIsValid(t);
    OpReopensNothing(s.jobs, JobQueue.ResetOp(QUEUE, RESTARTED));
    SameTargets(s.jobs, t.jobs);
    KnownStays(s, t);
  }

  lemma UnroutedIsValid(t: State)
    requires t.bindings == {} && t.activations == map[] && AllLocal(t)
    requires forall id :: id in t.execs ==> !Live(t.execs[id].status)
    requires forall ref :: ref in t.suspensions ==>
               t.suspensions[ref].executionId in t.execs && t.execs[t.suspensions[ref].executionId].reference == ref
    ensures RoutesValid(t)
  {
    hide PreviewBinding;
  }

  /** Whatever handlers were doing, and however their statements were interleaved, a restart restores the
      lifecycle invariant, loses no job and charges no attempt. */
  lemma RestartAfterAnyInterleaving(s: State, calls: seq<Call>)
    requires Inv(s) && AllSound(s, calls)
    ensures Reconciled(After(s, calls), After(After(s, calls), RESTART_CALLS))
  {
    hide Weak, Inv, Reconciled, AllSound, After;
    InvIsWeak(s);
    InterleavingKeepsWeak(s, calls);
    ReconcileRestores(After(s, calls));
  }

  // ----- Every handler issues sound statements -----

  /** What stays true of executions while statements run. */
  ghost predicate Later(s: State, t: State) {
    forall id :: id in s.execs ==> id in t.execs && t.execs[id].reference == s.execs[id].reference
  }

  /** A statement on executions and routes that is sound in s and in every later state. */
  ghost predicate RouteCallSound(s: State, c: Call) {
    !c.Queue? && !c.InsertExecution? && CallSound(s, c)
  }

  lemma RouteCallsSound(s: State, t: State, calls: seq<Call>, k: nat)
    requires Later(s, t) && k <= |calls| && forall i :: 0 <= i < |calls| ==> RouteCallSound(s, calls[i])
    ensures Later(s, After(t, calls[..k])) && After(t, calls[..k]).jobs == t.jobs
    ensures k < |calls| ==> CallSound(After(t, calls[..k]), calls[k])
  {
    if k > 0 {
      RouteCallsSound(s, t, calls, k - 1);
      assert calls[..k][..k - 1] == calls[..k - 1];
      assert RouteCallSound(s, calls[k - 1]);
    } else {
      assert calls[..0] == [];
    }
    if k < |calls| { assert RouteCallSound(s, calls[k]); }
  }

  lemma RoutesAllSound(s: State, t: State, calls: seq<Call>)
    requires Later(s, t) && forall i :: 0 <= i < |calls| ==> RouteCallSound(s, calls[i])
    ensures AllSound(t, calls)
  {
    hide RouteCallSound, CallSound, After;
    forall k | 0 <= k < |calls| ensures CallSound(After(t, calls[..k]), calls[k]) { RouteCallsSound(s, t, calls, k); }
  }

  lemma LaunchSounds(s: State, id: string, reference: string, outcome: Outcome, auto: bool)
    ensures forall c :: c in LaunchCalls(s, id, reference, outcome, auto).0 ==> RouteCallSound(s, c)
  {
    hide RouteCalls;
    if id in s.execs && outcome.Healthy? { RouteSounds(s, id, outcome.spec, auto); }
  }

  lemma RouteSounds(s: State, id: string, spec: Spec, auto: bool)
    requires id in s.execs
    ensures forall c :: c in RouteCalls(s, id, spec, auto) ==> RouteCallSound(s, c)
  {}

  lemma HandlerCallsSound(s: State, job: JobQueue.Job, outcome: Outcome, auto: bool)
    ensures forall c :: c in JobCalls(s, job, outcome, auto).0 ==> RouteCallSound(s, c)
  {
    hide Payload, LaunchCalls;
    LaunchSounds(s, Target(job), Payload(job, "reference"), outcome, auto);
  }

  lemma HandlerSounds(s: State, id: string, reasonCode: string)
    ensures forall c :: c in ExitCalls(s, id) ==> RouteCallSound(s, c)
    ensures forall c :: c in KillCalls(s, id, reasonCode) ==> RouteCallSound(s, c)
    ensures forall c :: c in ActivateCalls(s, id) ==> RouteCallSound(s, c)
  {}

  lemma AllSoundAppend(s: State, a: seq<Call>, b: seq<Call>)
    requires AllSound(s, a) && AllSound(After(s, a), b)
    ensures AllSound(s, a + b)
  {
    hide CallSound, After;
    var calls := a + b;
    forall k | 0 <= k < |calls| ensures CallSound(After(s, calls[..k]), calls[k]) {
      if k < |a| {
        assert calls[..k] == a[..k];
      } else {
        assert calls[..k] == a + b[..k - |a|];
        AfterAppend(s, a, b[..k - |a|]);
      }
    }
  }

  lemma OneSound(s: State, c: Call)
    requires CallSound(s, c)
    ensures AllSound(s, [c])
  {
    hide CallSound;
    assert [c][..0] == [];
  }

  lemma LaunchRequestSound(s: State, e: Event)
    requires Inv(s) && Allowed(s, e) && e.ApiLaunch?
    ensures AllSound(s, EventCalls(s, e))
  {
    hide RoutesValid, JobQueue.QueueValid, LaunchesOpen, CallSound, After, TrimSpace, Trimmed;
    if e.id !in s.execs {
      var insert := InsertExecution(e.id, Requested(e.id, e.reference, e.seedId, e.subdomain, e.pathPrefix));
      var op := JobQueue.EnqueueOp(LaunchJob("", e.id, e.reference, e.seedId), e.jobId, e.now);
      After1(s, insert);
      LaunchCallsSound(s, e.id, Requested(e.id, e.reference, e.seedId, e.subdomain, e.pathPrefix), op);
      OneSound(s, insert);
      OneSound(Apply(s, insert), Queue(op));
      AllSoundAppend(s, [insert], [Queue(op)]);
      assert EventCalls(s, e) == [insert] + [Queue(op)];
    }
  }

  lemma LaunchCallsSound(s: State, id: string, e: Execution, op: JobQueue.Op)
    requires LaunchesKnown(s) && id !in s.execs && Trimmed(id) && e.backend == LOCAL
    requires op.EnqueueOp? && op.input.status == "" && op.input.maxAttempts == 0
    requires "execution_id" in op.input.payload && op.input.payload["execution_id"] == id
    ensures CallSound(s, InsertExecution(id, e)) && CallSound(Apply(s, InsertExecution(id, e)), Queue(op))
  {
    EnqueueAllowed(s.jobs, op.input, op.freshId, op.now);
    TrimSpaceFixpoint(id);
    var job := JobQueue.NewJob(op.input, op.freshId, op.now);
    assert Target(job) == id;
    hide Target, TrimSpace, JobQueue.Allowed, JobQueue.NewJob;
    forall j | IsLaunch(s.jobs, j) ensures Target(s.jobs[j]) != id {}
  }

  lemma TickSound(s: State, chosen: Option<string>, worker: string, now: nat, outcome: Outcome, auto: bool,
                  error: string)
    requires Inv(s) && Allowed(s, Tick(chosen, worker, now, outcome, auto, error))
    ensures AllSound(s, EventCalls(s, Tick(chosen, worker, now, outcome, auto, error)))
    ensures chosen.Some? ==>
              chosen.value in s.jobs && s.jobs[chosen.value].status == "pending" && s.jobs[chosen.value].queue == QUEUE
  {
    hide RoutesValid, After, JobCalls, JobQueue.QueueValid, JobQueue.ValidChoice, LaunchesKnown, LaunchesOpen,
         RouteCallSound;
    var claim := ClaimCall(chosen, worker, now);
    OneSound(s, claim);
    JobQueue.ChosenStored(s.jobs, QUEUE, now, 1, ChosenSet(chosen));
    if chosen.None? {
      assert EventCalls(s, Tick(chosen, worker, now, outcome, auto, error)) == [claim];
    } else {
      var j := chosen.value;
      var handled := JobCalls(s, s.jobs[j], outcome, auto);
      var finish := FinishCall(j, handled.1, worker, now, error);
      var claimed := Apply(s, claim);
      After1(s, claim);
      HandlerCallsSound(s, s.jobs[j], outcome, auto);
      RoutesAllSound(s, claimed, handled.0);
      RouteCallsSound(s, claimed, handled.0, |handled.0|);
      assert handled.0[..|handled.0|] == handled.0;
      var t := After(claimed, handled.0);
      assert CallSound(t, finish) by { HolderFinishes(s.jobs, t, j, handled.1, worker, now, error); }
      OneSound(t, finish);
      AllSoundAppend(claimed, handled.0, [finish]);
      AllSoundAppend(s, [claim], handled.0 + [finish]);
    }
  }

  lemma HolderFinishes(jobs: JobQueue.Jobs, t: State, j: string, ok: bool, worker: string, now: nat, error: string)
    requires j in jobs && t.jobs == JobQueue.Taken(jobs, {j}, worker, now)
    ensures CallSound(t, FinishCall(j, ok, worker, now, error))
  {
    assert t.jobs[j] == JobQueue.ClaimedJob(jobs[j], worker, now);
  }

  lemma EventSound(s: State, e: Event)
    requires Inv(s) && Allowed(s, e)
    ensures AllSound(s, EventCalls(s, e))
  {
    hide RoutesValid, JobsValid, After, JobCalls, ExitCalls, KillCalls, ActivateCalls, RouteCallSound, Blank, TrimSpace;
    assert AllSound(s, []);
    assert Later(s, s);
    match e {
      case ApiLaunch(_, _, _, _, _, _, _) => LaunchRequestSound(s, e);
      case ApiStop(id, jobId, now) =>
        EnqueueAllowed(s.jobs, StopJob("", TrimSpace(id)), jobId, now);
        OneSound(s, Queue(JobQueue.EnqueueOp(StopJob("", TrimSpace(id)), jobId, now)));
      case ApiEnqueue(input, freshId, now) => OneSound(s, Queue(JobQueue.EnqueueOp(input, freshId, now)));
      case Tick(chosen, worker, now, outcome, auto, error) => TickSound(s, chosen, worker, now, outcome, auto, error);
      case ApiActivate(id) =>
        HandlerSounds(s, id, "");
        RoutesAllSound(s, s, ActivateCalls(s, id));
      case ProcessExit(id) =>
        HandlerSounds(s, id, "");
        RoutesAllSound(s, s, ExitCalls(s, id));
      case BudgetKill(id, reasonCode) =>
        HandlerSounds(s, id, reasonCode);
        RoutesAllSound(s, s, KillCalls(s, id, reasonCode));
      case Restart =>
        var reset := Queue(JobQueue.ResetOp(QUEUE, RESTARTED));
        OneSound(s, ResetBackend(LOCAL));
        OneSound(After(s, [ResetBackend(LOCAL)]), reset);
        AllSoundAppend(s, [ResetBackend(LOCAL)], [reset]);
        assert RESTART_CALLS == [ResetBackend(LOCAL)] + [reset];
    }
  }

  /** Crash recovery: a crash after any of an event's statements, followed by startup reconciliation, leaves
      the lifecycle invariant whole, with no live local execution, no binding, no activation and no running
      job, every job still there and no attempt charged. */
  lemma CrashRecovery(s: State, e: Event, k: nat)
    requires Inv(s) && Allowed(s, e) && k <= |EventCalls(s, e)|
    ensures var crashed := After(s, EventCalls(s, e)[..k]);
            Reconciled(crashed, After(crashed, RESTART_CALLS))
  {
    hide Inv, Allowed, EventCalls, CallSound, Reconciled, After;
    var calls := EventCalls(s, e);
    EventSound(s, e);
    forall i | 0 <= i < k ensures CallSound(After(s, calls[..k][..i]), calls[..k][i]) {
      assert calls[..k][..i] == calls[..i];
    }
    RestartAfterAnyInterleaving(s, calls[..k]);
  }

  /** A worker that dies inside a job, before its last statement, leaves the job to be claimed again with all
      its attempts. */
  lemma CrashedJobIsRetried(s: State, j: string, worker: string, now: nat, outcome: Outcome, auto: bool, error: string,
                            k: nat)
    requires Inv(s) && Allowed(s, Tick(Some(j), worker, now, outcome, auto, error))
    requires 1 <= k < |EventCalls(s, Tick(Some(j), worker, now, outcome, auto, error))|
    ensures var crashed := After(s, EventCalls(s, Tick(Some(j), worker, now, outcome, auto, error))[..k]);
            var jobs := After(crashed, RESTART_CALLS).jobs;
            && j in s.jobs && j in jobs && jobs[j].status == "pending" && jobs[j].attempts == s.jobs[j].attempts
            && jobs[j].runAt == s.jobs[j].runAt && jobs[j].payload == s.jobs[j].payload
  {
    hide After, JobCalls, RouteCallSound, RoutesValid, LaunchesKnown, LaunchesOpen, JobQueue.QueueValid,
         JobQueue.ValidChoice;
    TickSound(s, Some(j), worker, now, outcome, auto, error);
    var claim := ClaimCall(Some(j), worker, now);
    var claimed := Apply(s, claim);
    After1(s, claim);
    var handled := JobCalls(s, s.jobs[j], outcome, auto);
    HandlerCallsSound(s, s.jobs[j], outcome, auto);
    RouteCallsSound(s, claimed, handled.0, k - 1);
    var calls := EventCalls(s, Tick(Some(j), worker, now, outcome, auto, error));
    assert calls[..k] == [claim] + handled.0[..k - 1];
    AfterAppend(s, [claim], handled.0[..k - 1]);
    var crashed := After(s, calls[..k]);
    assert crashed.jobs == claimed.jobs;
    After2(crashed, ResetBackend(LOCAL), Queue(JobQueue.ResetOp(QUEUE, RESTARTED)));
    ResetReturns(s.jobs, j, worker, now);
  }

  lemma ResetReturns(jobs: JobQueue.Jobs, j: string, worker: string, now: nat)
    requires j in jobs && jobs[j].queue == QUEUE
    ensures var jobs' := JobQueue.AllReset(JobQueue.Taken(jobs, {j}, worker, now), QUEUE, RESTARTED);
            && j in jobs' && jobs'[j].status == "pending" && jobs'[j].attempts == jobs[j].attempts
            && jobs'[j].runAt == jobs[j].runAt && jobs'[j].payload == jobs[j].payload
  {}
}

/** The lifecycle invariant over every run of handlers. */
module LifecycleRuns {
  import opened Wrappers
  import opened Text
  import opened Helpers
  import opened Executions
  import opened Lifecycle
  import JobQueue

  // ----- Jobs and executions -----

  predicate Open(job: JobQueue.Job) {
    job.status == "pending" || job.status == "running"
  }

  /** t has the executions of s, and none of them became healthy but `except`. */
  ghost predicate NoneHealthier(s: State, t: State, except: Option<string>) {
    forall x :: x in s.execs ==>
      x in t.execs && (t.execs[x].status == "healthy" && except != Some(x) ==> s.execs[x].status == "healthy")
  }

  /** The same jobs with the same work to do, none of them opened again. */
  ghost predicate NoneReopened(jobs: JobQueue.Jobs, jobs': JobQueue.Jobs) {
    && jobs'.Keys == jobs.Keys
    && (forall j :: j in jobs ==> jobs'[j].kind == jobs[j].kind && jobs'[j].payload == jobs[j].payload)
    && (forall j :: j in jobs && Open(jobs'[j]) ==> Open(jobs[j]))
  }

  lemma RoutesIgnoreJobs(s: State, jobs: JobQueue.Jobs)
    requires RoutesValid(s)
    ensures RoutesValid(s.(jobs := jobs))
  {
    var t := s.(jobs := jobs);
    forall id | id in t.execs ensures PreviewOf(t, id) == PreviewOf(s, id) {}
  }

  lemma JobsKept(s: State, t: State)
    requires JobsValid(s) && JobQueue.QueueValid(t.jobs) && NoneReopened(s.jobs, t.jobs) && NoneHealthier(s, t, None)
    ensures JobsValid(t)
  {
    hide JobQueue.QueueValid, Payload;
    SameTargets(s.jobs, t.jobs);
  }

  lemma SameTargets(jobs: JobQueue.Jobs, jobs': JobQueue.Jobs)
    requires NoneReopened(jobs, jobs')
    ensures forall j :: IsLaunch(jobs', j) <==> IsLaunch(jobs, j)
    ensures forall j :: j in jobs ==> Target(jobs'[j]) == Target(jobs[j])
  {
    hide TrimSpace;
  }

  lemma OpReopensNothing(jobs: JobQueue.Jobs, op: JobQueue.Op)
    requires JobQueue.QueueValid(jobs) && JobQueue.Allowed(jobs, op) && !op.EnqueueOp?
    ensures JobQueue.QueueValid(JobQueue.Step(jobs, op)) && NoneReopened(jobs, JobQueue.Step(jobs, op))
  {
    hide JobQueue.QueueValid, JobQueue.ValidChoice, JobQueue.ClaimedJob, JobQueue.CompletedJob, JobQueue.FailedJob,
         JobQueue.ResetJob, Open;
    JobQueue.StepKeeps(jobs, op);
    if op.ClaimOp? { JobQueue.ChosenStored(jobs, op.queue, op.now, op.limit, op.chosen); }
    forall j | j in jobs
      ensures var job := JobQueue.Step(jobs, op)[j];
              job.kind == jobs[j].kind && job.payload == jobs[j].payload && (Open(job) ==> Open(jobs[j]))
    {
      RowReopensNothing(jobs[j], op);
    }
  }

  lemma RowReopensNothing(job: JobQueue.Job, op: JobQueue.Op)
    ensures match op
            case EnqueueOp(_, _, _) => true
            case ClaimOp(worker, _, now, _, _) =>
              var r := JobQueue.ClaimedJob(job, worker, now);
              r.kind == job.kind && r.payload == job.payload && (job.status == "pending" ==> Open(job))
            case CompleteOp(_, _, at) =>
              var r := JobQueue.CompletedJob(job, at);
              r.kind == job.kind && r.payload == job.payload && !Open(r)
            case FailOp(_, _, error, retryAt, failedAt) =>
              var r := JobQueue.FailedJob(job, error, retryAt, failedAt);
              r.kind == job.kind && r.payload == job.payload && (job.status == "running" ==> Open(job))
            case ResetOp(queue, reason) =>
              var r := JobQueue.ResetJob(job, queue, reason);
              r.kind == job.kind && r.payload == job.payload && (Open(r) ==> Open(job))
  {}

  // ----- Enqueues -----

  /** A new job that is not a launch leaves everything as it was. */
  lemma OtherEnqueueKeeps(s: State, input: JobQueue.EnqueueInput, freshId: string, now: nat)
    requires Inv(s) && input.kind != LAUNCH
    requires JobQueue.Allowed(s.jobs, JobQueue.EnqueueOp(input, freshId, now))
    ensures Inv(s.(jobs := JobQueue.Step(s.jobs, JobQueue.EnqueueOp(input, freshId, now))))
  {
    var op := JobQueue.EnqueueOp(input, freshId, now);
    var t := s.(jobs := JobQueue.Step(s.jobs, op));
    JobQueue.StepKeeps(s.jobs, op);
    RoutesIgnoreJobs(s, t.jobs);
    hide RoutesValid, JobQueue.QueueValid, JobQueue.Allowed, Payload, Blank, StatusOrDefault, TimeOr, NullString;
    assert forall j :: IsLaunch(t.jobs, j) ==> IsLaunch(s.jobs, j) && t.jobs[j] == s.jobs[j];
  }

  /** A launch request stores its execution and one open job for it. */
  lemma LaunchRequestKeeps(s: State, id: string, reference: string, seedId: string, subdomain: string,
                           pathPrefix: string, jobId: string, now: nat)
    requires Inv(s) && id !in s.execs && Trimmed(id)
    ensures Inv(After(s, EventCalls(s, ApiLaunch(id, reference, seedId, subdomain, pathPrefix, jobId, now))))
  {
    hide After, RoutesValid, JobsValid, JobQueue.Step, TrimSpace;
    var e := Requested(id, reference, seedId, subdomain, pathPrefix);
    var input := LaunchJob("", id, reference, seedId);
    var op := JobQueue.EnqueueOp(input, jobId, now);
    After2(s, InsertExecution(id, e), Queue(op));
    NewExecutionKeeps(s, id, e);
    RoutesIgnoreJobs(s.(execs := s.execs[id := e]), JobQueue.Step(s.jobs, op));
    hide RoutesValid, JobQueue.Step, After, TrimSpace, Requested, LaunchJob;
    LaunchJobKeeps(s, id, e, input, jobId, now);
  }

  lemma LaunchJobKeeps(s: State, id: string, e: Execution, input: JobQueue.EnqueueInput, jobId: string, now: nat)
    requires JobsValid(s) && id !in s.execs && Trimmed(id) && e.status != "healthy"
    requires input.status == "" && input.maxAttempts == 0 && "execution_id" in input.payload
             && input.payload["execution_id"] == id
    ensures JobsValid(s.(execs := s.execs[id := e],
                         jobs := JobQueue.Step(s.jobs, JobQueue.EnqueueOp(input, jobId, now))))
  {
    var op := JobQueue.EnqueueOp(input, jobId, now);
    var t := s.(execs := s.execs[id := e], jobs := JobQueue.Step(s.jobs, op));
    EnqueueAllowed(s.jobs, input, jobId, now);
    JobQueue.StepKeeps(s.jobs, op);
    TrimSpaceFixpoint(id);
    var job := JobQueue.NewJob(input, jobId, now);
    assert Target(job) == id && job.payload == input.payload;
    hide JobQueue.QueueValid, Target, JobQueue.Allowed, JobQueue.NewJob, Blank, Trimmed;
    if t.jobs != s.jobs {
      assert job.jobId !in s.jobs && t.jobs == s.jobs[job.jobId := job];
      hide JobQueue.Step;
      AddedLaunch(s, t, id, job);
    }
  }

  lemma AddedLaunch(s: State, t: State, id: string, job: JobQueue.Job)
    requires LaunchesKnown(s) && LaunchesOpen(s) && id !in s.execs && Target(job) == id
    requires job.jobId !in s.jobs && t.jobs == s.jobs[job.jobId := job]
    requires t.execs.Keys == s.execs.Keys + {id} && t.execs[id].status != "healthy"
    requires forall x :: x in s.execs ==> t.execs[x] == s.execs[x]
    ensures LaunchesKnown(t) && LaunchesOpen(t)
  {
    hide Target;
    forall j | IsLaunch(t.jobs, j) && j != job.jobId ensures IsLaunch(s.jobs, j) && Target(t.jobs[j]) in s.execs {}
  }

  lemma EnqueueAllowed(jobs: JobQueue.Jobs, input: JobQueue.EnqueueInput, freshId: string, now: nat)
    requires input.status == "" && input.maxAttempts == 0
    ensures JobQueue.Allowed(jobs, JobQueue.EnqueueOp(input, freshId, now))
  {}

  lemma NewExecutionKeeps(s: State, id: string, e: Execution)
    requires RoutesValid(s) && id !in s.execs && e.status != "healthy" && e.backend == LOCAL
    ensures RoutesValid(s.(execs := s.execs[id := e]))
  {
    var t := s.(execs := s.execs[id := e]);
    forall x | x in t.execs ensures PreviewOf(t, x) in t.bindings <==> t.execs[x].status == "healthy" {
      if x != id { assert PreviewOf(t, x) == PreviewOf(s, x); } else { assert PreviewOf(t, x).executionId == id; }
    }
  }

  // ----- A worker's tick -----

  ghost predicate OutcomeReal(outcome: Outcome) {
    outcome.HealthFails? || outcome.Healthy? ==> outcome.spec.upstream != ""
  }

  /** What a job's handler does to executions and routes; only a successful launch makes one healthy. */
  lemma JobHandled(s: State, job: JobQueue.Job, outcome: Outcome, auto: bool)
    requires RoutesValid(s) && OutcomeReal(outcome)
    requires job.kind == LAUNCH && Target(job) in s.execs ==> s.execs[Target(job)].status != "healthy"
    ensures var r := JobCalls(s, job, outcome, auto);
            var t := After(s, r.0);
            && RoutesValid(t) && t.jobs == s.jobs
            && NoneHealthier(s, t, if job.kind == LAUNCH && r.1 then Some(Target(job)) else None)
  {
    hide RoutesValid, Payload, LaunchCalls, StopCalls, After, Sunk, Launched;
    AfterNothing(s);
    var id := Target(job);
    if job.kind == LAUNCH {
      LaunchHandled(s, id, Payload(job, "reference"), outcome, auto);
    } else if job.kind == STOP {
      StopHandled(s, id);
    }
  }

  lemma LaunchHandled(s: State, id: string, reference: string, outcome: Outcome, auto: bool)
    requires RoutesValid(s) && OutcomeReal(outcome) && (id in s.execs ==> s.execs[id].status != "healthy")
    ensures var r := LaunchCalls(s, id, reference, outcome, auto);
            var t := After(s, r.0);
            RoutesValid(t) && t.jobs == s.jobs && NoneHealthier(s, t, if r.1 then Some(id) else None)
  {
    hide RoutesValid, After, StableBindings, RouteCalls;
    AfterNothing(s);
    if id != "" && reference != "" && id in s.execs {
      match outcome {
        case Healthy(spec) =>
          HealthyLaunchComesTo(s, id, reference, spec, auto);
          LaunchedKeeps(s, id, spec, auto);
        case HealthFails(spec) =>
          UnhealthyIsUnrouted(s, id);
          FailedLaunchComesTo(s, id, reference, outcome, auto);
          SunkKeeps(s, id, "failed", spec.upstream, PreviewPathOf(id));
        case _ =>
          UnhealthyIsUnrouted(s, id);
          FailedLaunchComesTo(s, id, reference, outcome, auto);
          SunkKeeps(s, id, "failed", "", "");
      }
    }
  }

  lemma StopHandled(s: State, id: string)
    requires RoutesValid(s)
    ensures var t := After(s, StopCalls(s, id).0);
            RoutesValid(t) && t.jobs == s.jobs && NoneHealthier(s, t, None)
  {
    hide RoutesValid, After;
    AfterNothing(s);
    if StopCalls(s, id).1 {
      StopComesTo(s, id);
      SunkKeeps(s, id, "stopped", "", "");
      DropStableKeeps(Sunk(s, id, "stopped", "", ""), s.execs[id].reference);
    }
  }

  lemma TickKeeps(s: State, chosen: Option<string>, worker: string, now: nat, outcome: Outcome, auto: bool,
                  error: string)
    requires Inv(s) && Allowed(s, Tick(chosen, worker, now, outcome, auto, error))
    ensures Inv(Step(s, Tick(chosen, worker, now, outcome, auto, error)))
  {
    hide RoutesValid, After, JobCalls, JobQueue.QueueValid, JobQueue.ValidChoice, LaunchesKnown, NoneReopened;
    var claim := ClaimCall(chosen, worker, now);
    After1(s, claim);
    AfterNothing(Apply(s, claim));
    JobQueue.ChosenStored(s.jobs, QUEUE, now, 1, ChosenSet(chosen));
    var op := JobQueue.ClaimOp(worker, QUEUE, now, 1, ChosenSet(chosen));
    OpReopensNothing(s.jobs, op);
    var claimed := s.(jobs := JobQueue.Step(s.jobs, op));
    RoutesIgnoreJobs(s, claimed.jobs);
    if chosen.None? {
      AfterAppend(s, [claim], []);
      JobsKept(s, claimed);
    } else {
      var j := chosen.value;
      var handled := JobCalls(s, s.jobs[j], outcome, auto);
      var finish := FinishCall(j, handled.1, worker, now, error);
      ClaimHidesNothing(s, claimed.jobs, s.jobs[j], outcome, auto);
      JobHandled(claimed, s.jobs[j], outcome, auto);
      var t := After(claimed, handled.0);
      AfterAppend(s, [claim], handled.0 + [finish]);
      AfterSnoc(claimed, handled.0, finish);
      RoutesIgnoreJobs(t, JobQueue.Step(t.jobs, finish.op));
      FinishKeeps(s, t, j, handled.1, worker, now, error);
    }
  }

  lemma ClaimHidesNothing(s: State, jobs: JobQueue.Jobs, job: JobQueue.Job, outcome: Outcome, auto: bool)
    ensures JobCalls(s.(jobs := jobs), job, outcome, auto) == JobCalls(s, job, outcome, auto)
  {
    hide Payload, StableBindings;
  }

  /** Completing or failing the claimed job closes the tick: a launch job stays open only when its execution
      did not become healthy. */
  lemma FinishKeeps(s: State, t: State, j: string, ok: bool, worker: string, now: nat, error: string)
    requires JobsValid(s) && j in s.jobs && s.jobs[j].status == "pending"
    requires t.jobs == JobQueue.Taken(s.jobs, {j}, worker, now) && JobQueue.QueueValid(t.jobs)
    requires NoneHealthier(s, t, if s.jobs[j].kind == LAUNCH && ok then Some(Target(s.jobs[j])) else None)
    ensures JobsValid(t.(jobs := JobQueue.Step(t.jobs, FinishCall(j, ok, worker, now, error).op)))
  {
    var op := FinishCall(j, ok, worker, now, error).op;
    var u := t.(jobs := JobQueue.Step(t.jobs, op));
    FinishedJobs(s.jobs, j, ok, worker, now, error);
    hide JobQueue.QueueValid, JobQueue.Step, JobQueue.Taken, FinishCall, Target;
    forall i | i in s.jobs ensures u.jobs[i].kind == s.jobs[i].kind && Target(u.jobs[i]) == Target(s.jobs[i]) {
      TargetByPayload(s.jobs[i], u.jobs[i]);
    }
    KnownStays(s, u);
    forall i | IsLaunch(u.jobs, i) && (u.jobs[i].status == "pending" || u.jobs[i].status == "running")
      ensures Target(u.jobs[i]) in u.execs && u.execs[Target(u.jobs[i])].status != "healthy"
    {
      assert IsLaunch(s.jobs, i) && Target(s.jobs[i]) in s.execs;
      if i != j { assert IsLaunch(s.jobs, j) ==> Target(s.jobs[i]) != Target(s.jobs[j]); }
    }
  }

  lemma TargetByPayload(a: JobQueue.Job, b: JobQueue.Job)
    requires a.payload == b.payload
    ensures Target(a) == Target(b)
  {}

  lemma KnownStays(s: State, t: State)
    requires LaunchesKnown(s) && s.jobs.Keys == t.jobs.Keys && s.execs.Keys <= t.execs.Keys
    requires forall i :: i in s.jobs ==> t.jobs[i].kind == s.jobs[i].kind && Target(t.jobs[i]) == Target(s.jobs[i])
    ensures LaunchesKnown(t)
  {
    hide Target;
    forall j | IsLaunch(t.jobs, j) ensures IsLaunch(s.jobs, j) && Target(t.jobs[j]) in t.execs {}
  }

  lemma FinishedJobs(jobs: JobQueue.Jobs, j: string, ok: bool, worker: string, now: nat, error: string)
    requires j in jobs && jobs[j].status == "pending" && JobQueue.QueueValid(JobQueue.Taken(jobs, {j}, worker, now))
    ensures var jobs' := JobQueue.Step(JobQueue.Taken(jobs, {j}, worker, now),
                                       FinishCall(j, ok, worker, now, error).op);
            && JobQueue.QueueValid(jobs') && jobs'.Keys == jobs.Keys
            && (forall i :: i in jobs && i != j ==> jobs'[i] == jobs[i])
            && jobs'[j].kind == jobs[j].kind && jobs'[j].payload == jobs[j].payload
            && (ok ==> jobs'[j].status == "completed")
  {
    var op := FinishCall(j, ok, worker, now, error).op;
    var taken := JobQueue.Taken(jobs, {j}, worker, now);
    assert taken[j] == JobQueue.ClaimedJob(jobs[j], worker, now);
    assert JobQueue.Allowed(taken, op);
    JobQueue.StepKeeps(taken, op);
    hide JobQueue.QueueValid;
  }

  // ----- Other events -----

  lemma RestartComesTo(s: State)
    requires forall b :: b in s.bindings ==> b.executionId in s.execs
    requires forall ref :: ref in s.activations ==> s.activations[ref] in s.execs
    requires AllLocal(s)
    ensures var t := After(s, RESTART_CALLS);
            && t.bindings == {} && t.activations == map[] && t.suspensions == s.suspensions
            && t.jobs == JobQueue.AllReset(s.jobs, QUEUE, RESTARTED)
            && t.execs.Keys == s.execs.Keys
            && forall id :: id in s.execs ==>
                 t.execs[id] == if Live(s.execs[id].status) then s.execs[id].(status := "stopped") else s.execs[id]
  {
    After2(s, ResetBackend(LOCAL), Queue(JobQueue.ResetOp(QUEUE, RESTARTED)));
    var t := Apply(s, ResetBackend(LOCAL));
    assert t.bindings == {};
    assert t.activations == map[];
  }

  lemma RestartKeeps(s: State)
    requires Inv(s)
    ensures Inv(After(s, RESTART_CALLS))
  {
    RestartComesTo(s);
    var t := After(s, RESTART_CALLS);
    assert RoutesValid(t);
    OpReopensNothing(s.jobs, JobQueue.ResetOp(QUEUE, RESTARTED));
    hide RoutesValid, JobQueue.QueueValid;
    JobsKept(s, t);
  }

  lemma ExitKeeps(s: State, id: string)
    requires Inv(s)
    ensures Inv(After(s, ExitCalls(s, id)))
  {
    hide RoutesValid, After, JobsValid;
    AfterNothing(s);
    if id in s.execs && !Terminal(s.execs[id].status) {
      ExitComesTo(s, id);
      TerminatedKeeps(s, id, "unexpected_process_exit");
      TerminatedJobs(s, id, "unexpected_process_exit");
    }
  }

  lemma KillKeeps(s: State, id: string, reasonCode: string)
    requires Inv(s)
    ensures Inv(After(s, KillCalls(s, id, reasonCode)))
  {
    hide RoutesValid, After, JobsValid;
    AfterNothing(s);
    if id in s.execs {
      KillComesTo(s, id, reasonCode);
      TerminatedKeeps(s, id, reasonCode);
      TerminatedJobs(s, id, reasonCode);
    }
  }

  lemma TerminatedJobs(s: State, id: string, reasonCode: string)
    requires JobsValid(s) && id in s.execs
    ensures JobsValid(Terminated(s, id, reasonCode))
  {
    hide JobsValid;
    assert NoneHealthier(s, Terminated(s, id, reasonCode), None);
    SameJobs(s, Terminated(s, id, reasonCode));
  }

  lemma SameJobs(s: State, t: State)
    requires JobsValid(s) && t.jobs == s.jobs && NoneHealthier(s, t, None)
    ensures JobsValid(t)
  {
    JobsKept(s, t);
  }

  lemma ActivateKeeps(s: State, id: string)
    requires Inv(s)
    ensures Inv(After(s, ActivateCalls(s, id)))
  {
    hide RoutesValid, After, JobsValid, StableBindings;
    AfterNothing(s);
    if id in s.execs && s.execs[id].status == "healthy" {
      ActivateComesTo(s, id);
      ActivatedKeeps(s, id);
      SameJobs(s, After(s, ActivateCalls(s, id)));
    }
  }

  // ----- Every event, every run -----

  lemma StepKeeps(s: State, e: Event)
    requires Inv(s) && Allowed(s, e)
    ensures Inv(Step(s, e))
  {
    hide Inv, After, ExitCalls, KillCalls, ActivateCalls, JobCalls, Blank;
    AfterNothing(s);
    match e {
      case ApiLaunch(id, reference, seedId, subdomain, pathPrefix, jobId, now) =>
        if id !in s.execs { LaunchRequestKeeps(s, id, reference, seedId, subdomain, pathPrefix, jobId, now); }
      case ApiStop(id, jobId, now) =>
        EnqueueAllowed(s.jobs, StopJob("", TrimSpace(id)), jobId, now);
        After1(s, Queue(JobQueue.EnqueueOp(StopJob("", TrimSpace(id)), jobId, now)));
        OtherEnqueueKeeps(s, StopJob("", TrimSpace(id)), jobId, now);
      case ApiActivate(id) => ActivateKeeps(s, id);
      case ApiEnqueue(input, freshId, now) =>
        After1(s, Queue(JobQueue.EnqueueOp(input, freshId, now)));
        OtherEnqueueKeeps(s, input, freshId, now);
      case Tick(chosen, worker, now, outcome, auto, error) => TickKeeps(s, chosen, worker, now, outcome, auto, error);
      case ProcessExit(id) => ExitKeeps(s, id);
      case BudgetKill(id, reasonCode) => KillKeeps(s, id, reasonCode);
      case Restart => RestartKeeps(s);
    }
  }

  ghost function Run(s: State, events: seq<Event>): State
    decreases |events|
  {
    if events == [] then s else Run(Step(s, events[0]), events[1..])
  }

  ghost predicate AllowedRun(s: State, events: seq<Event>)
    decreases |events|
  {
    events == [] || (Allowed(s, events[0]) && AllowedRun(Step(s, events[0]), events[1..]))
  }

  lemma {:induction false} RunKeeps(s: State, events: seq<Event>)
    requires Inv(s) && AllowedRun(s, events)
    ensures Inv(Run(s, events))
    decreases |events|
  {
    hide Inv, Allowed, Step;
    if events != [] {
      StepKeeps(s, events[0]);
      RunKeeps(Step(s, events[0]), events[1..]);
    }
  }

  lemma EveryRun(events: seq<Event>)
    requires AllowedRun(EMPTY_STATE, events)
    ensures Inv(Run(EMPTY_STATE, events))
  {
    RunKeeps(EMPTY_STATE, events);
  }

  // ----- What the invariant means for routing -----

  /** No route ever leads to an execution that is not healthy, or to another address than its own. */
  lemma RoutesLeadToHealthy(s: State, b: Binding)
    requires Inv(s) && b in s.bindings
    ensures b.executionId in s.execs && s.execs[b.executionId].status == "healthy"
            && b.upstream == s.execs[b.executionId].upstream
  {
    hide JobsValid;
    if b.kind == PreviewPath { assert b == PreviewOf(s, b.executionId); }
  }

  /** At most one execution per reference holds stable routes, and it is the one the activation names. */
  lemma OneStableExecution(s: State, a: Binding, b: Binding)
    requires Inv(s) && a in s.bindings && b in s.bindings && a.kind != PreviewPath && b.kind != PreviewPath
    requires a.reference == b.reference
    ensures a.executionId == b.executionId && Names(s, a.reference, a.executionId)
  {
    hide JobsValid;
  }
}

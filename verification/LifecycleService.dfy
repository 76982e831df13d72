/** The lifecycle tables as the runtime service updates them, and the handlers of the worker and the API as
    they run on them.  The ghost log records each statement, so a crash leaves the state after a prefix of it. */
module LifecycleService {
  import opened Wrappers
  import opened Text
  import opened Helpers
  import opened Sorting
  import opened Executions
  import opened Lifecycle
  import opened LifecycleRuns
  import JobQueue

  class Runtime {
    var execs: map<string, Execution>
    var activations: map<string, string>
    var bindings: set<Binding>
    var suspensions: map<string, Suspension>
    const queue: JobQueue.JobTable
    ghost var origin: State
    ghost var log: seq<Call>

    function Tables(): State
      reads this, queue
    {
      State(execs, activations, bindings, suspensions, queue.jobs)
    }

    /** The tables are what the logged statements made of the origin. */
    ghost predicate Valid()
      reads this, queue
    {
      Tables() == After(origin, log) && JobQueue.Keyed(queue.jobs)
    }

    constructor ()
      ensures Valid() && fresh(queue) && Tables() == EMPTY_STATE && origin == EMPTY_STATE && log == []
    {
      execs, activations, bindings, suspensions := map[], map[], {}, map[];
      queue := new JobQueue.JobTable();
      origin, log := EMPTY_STATE, [];
    }

    // ----- Statements -----

    method CreateRealizationExecution(id: string, execution: Execution) returns (r: Result<Execution>)
      requires Valid()
      modifies this
      ensures Valid() && origin == old(origin) && log == old(log) + [InsertExecution(id, execution)]
      ensures Tables() == Apply(old(Tables()), InsertExecution(id, execution))
      ensures r.Ok? <==> id !in old(execs)
    {
      AfterSnoc(origin, log, InsertExecution(id, execution));
      log := log + [InsertExecution(id, execution)];
      if id in execs {
        return Err("conflict");
      }
      execs := execs[id := execution];
      return Ok(execution);
    }

    method UpdateRealizationExecution(id: string, status: string, upstream: string, previewPath: string)
      returns (r: Result<Execution>)
      requires Valid()
      modifies this
      ensures Valid() && origin == old(origin) && log == old(log) + [UpdateExecution(id, status, upstream, previewPath)]
      ensures Tables() == Apply(old(Tables()), UpdateExecution(id, status, upstream, previewPath))
      ensures r == if id in old(execs) then Ok(Updated(old(execs)[id], status, upstream, previewPath))
                   else Err("not found")
    {
      AfterSnoc(origin, log, UpdateExecution(id, status, upstream, previewPath));
      log := log + [UpdateExecution(id, status, upstream, previewPath)];
      if id !in execs {
        return Err("not found");
      }
      execs := execs[id := Updated(execs[id], status, upstream, previewPath)];
      return Ok(execs[id]);
    }

    method ActivateRealization(reference: string, id: string)
      requires Valid()
      modifies this
      ensures Valid() && origin == old(origin) && log == old(log) + [Activate(reference, id)]
      ensures Tables() == Apply(old(Tables()), Activate(reference, id))
    {
      AfterSnoc(origin, log, Activate(reference, id));
      log := log + [Activate(reference, id)];
      activations := activations[reference := id];
    }

    method DeleteRealizationActivation(reference: string)
      requires Valid()
      modifies this
      ensures Valid() && origin == old(origin) && log == old(log) + [DeleteActivation(reference)]
      ensures Tables() == Apply(old(Tables()), DeleteActivation(reference))
    {
      AfterSnoc(origin, log, DeleteActivation(reference));
      log := log + [DeleteActivation(reference)];
      activations := activations - {reference};
    }

    method DeleteStableRouteBindingsForReference(reference: string)
      requires Valid()
      modifies this
      ensures Valid() && origin == old(origin) && log == old(log) + [DeleteStable(reference)]
      ensures Tables() == Apply(old(Tables()), DeleteStable(reference))
    {
      AfterSnoc(origin, log, DeleteStable(reference));
      log := log + [DeleteStable(reference)];
      bindings := WithoutStable(bindings, reference);
    }

    method DeleteRealizationRouteBindings(id: string)
      requires Valid()
      modifies this
      ensures Valid() && origin == old(origin) && log == old(log) + [DeleteBindings(id)]
      ensures Tables() == Apply(old(Tables()), DeleteBindings(id))
    {
      AfterSnoc(origin, log, DeleteBindings(id));
      log := log + [DeleteBindings(id)];
      bindings := Without(bindings, id);
    }

    method ReplaceRealizationRouteBindings(id: string, wanted: set<Binding>)
      requires Valid()
      modifies this
      ensures Valid() && origin == old(origin) && log == old(log) + [ReplaceBindings(id, wanted)]
      ensures Tables() == Apply(old(Tables()), ReplaceBindings(id, wanted))
    {
      AfterSnoc(origin, log, ReplaceBindings(id, wanted));
      log := log + [ReplaceBindings(id, wanted)];
      bindings := Without(bindings, id);
      bindings := bindings + wanted;
    }

    method UpsertRealizationSuspension(reference: string, suspension: Suspension)
      requires Valid()
      modifies this
      ensures Valid() && origin == old(origin) && log == old(log) + [Suspend(reference, suspension)]
      ensures Tables() == Apply(old(Tables()), Suspend(reference, suspension))
    {
      AfterSnoc(origin, log, Suspend(reference, suspension));
      log := log + [Suspend(reference, suspension)];
      suspensions := suspensions[reference := suspension];
    }

    method ClearRealizationSuspension(reference: string)
      requires Valid()
      modifies this
      ensures Valid() && origin == old(origin) && log == old(log) + [ClearSuspension(reference)]
      ensures Tables() == Apply(old(Tables()), ClearSuspension(reference))
    {
      AfterSnoc(origin, log, ClearSuspension(reference));
      log := log + [ClearSuspension(reference)];
      suspensions := suspensions - {reference};
    }

    method ResetBackendExecutions(backend: string)
      requires Valid()
      modifies this
      ensures Valid() && origin == old(origin) && log == old(log) + [ResetBackend(backend)]
      ensures Tables() == Apply(old(Tables()), ResetBackend(backend))
    {
      hide ResetExecs, ResetBindings, ResetActivations, After;
      AfterSnoc(origin, log, ResetBackend(backend));
      log := log + [ResetBackend(backend)];
      var before := Tables();
      execs := ResetExecs(before, backend);
      bindings := ResetBindings(before, backend);
      activations := ResetActivations(before, backend);
    }

    // ----- Handlers -----

    /** handleStop of the worker. */
    method HandleStop(job: JobQueue.Job) returns (ok: bool)
      requires Valid()
      modifies this
      ensures Valid() && origin == old(origin)
      ensures log == old(log) + StopCalls(old(Tables()), Payload(job, "execution_id")).0
      ensures ok == StopCalls(old(Tables()), Payload(job, "execution_id")).1
    {
      hide After, Payload, Without, WithoutStable, Updated;
      var id := Payload(job, "execution_id");
      if id == "" || id !in execs {
        return false;
      }
      var reference := execs[id].reference;
      var updated := UpdateRealizationExecution(id, "stopped", "", "");
      if reference in activations && activations[reference] == id {
        DeleteRealizationActivation(reference);
      }
      DeleteStableRouteBindingsForReference(reference);
      DeleteRealizationRouteBindings(id);
      return true;
    }

    /** handleProcessExit. */
    method HandleProcessExit(id: string)
      requires Valid()
      modifies this
      ensures Valid() && origin == old(origin) && log == old(log) + ExitCalls(old(Tables()), id)
    {
      hide After, Without, WithoutStable, Updated;
      if id !in execs || Terminal(execs[id].status) {
        return;
      }
      var execution := execs[id];
      var updated := UpdateRealizationExecution(id, "terminated", "", "");
      DeleteRealizationRouteBindings(id);
      if execution.reference in activations && activations[execution.reference] == id {
        DeleteRealizationActivation(execution.reference);
        DeleteStableRouteBindingsForReference(execution.reference);
      }
      UpsertRealizationSuspension(execution.reference, Suspension(id, execution.subdomain, execution.pathPrefix,
                                                                  "unexpected_process_exit"));
    }

    /** terminateExecution. */
    method TerminateExecution(id: string, reasonCode: string)
      requires Valid()
      modifies this
      ensures Valid() && origin == old(origin) && log == old(log) + KillCalls(old(Tables()), id, reasonCode)
    {
      hide After, Without, WithoutStable, Updated;
      if id !in execs {
        return;
      }
      var execution := execs[id];
      var updated := UpdateRealizationExecution(id, "terminated", "", "");
      UpsertRealizationSuspension(execution.reference,
                                  Suspension(id, execution.subdomain, execution.pathPrefix, reasonCode));
      if execution.reference in activations && activations[execution.reference] == id {
        DeleteRealizationActivation(execution.reference);
        DeleteStableRouteBindingsForReference(execution.reference);
      }
      DeleteRealizationRouteBindings(id);
    }

    /** handleActivate of the API. */
    method HandleActivate(id: string) returns (ok: bool)
      requires Valid()
      modifies this
      ensures Valid() && origin == old(origin) && log == old(log) + ActivateCalls(old(Tables()), id)
      ensures ok <==> id in old(execs) && old(execs)[id].status == "healthy"
    {
      hide After, Without, WithoutStable;
      if id !in execs || execs[id].status != "healthy" {
        return false;
      }
      var e := execs[id];
      ActivateRealization(e.reference, id);
      DeleteStableRouteBindingsForReference(e.reference);
      var wanted := {Binding(id, e.reference, PreviewPath, "", e.previewPath, e.upstream)};
      var stable := {};
      if e.subdomain != "" {
        stable := stable + {Binding(id, e.reference, StableSubdomain, e.subdomain, "", e.upstream)};
      }
      if e.pathPrefix != "" {
        stable := stable + {Binding(id, e.reference, StablePath, "", e.pathPrefix, e.upstream)};
      }
      assert stable == StableBindings(id, e.reference, e.upstream, e.subdomain, e.pathPrefix);
      ReplaceRealizationRouteBindings(id, wanted + stable);
      return true;
    }

    /** handleLaunch of the worker. */
    method HandleLaunch(job: JobQueue.Job, outcome: Outcome, auto: bool) returns (ok: bool)
      requires Valid()
      modifies this
      ensures Valid() && origin == old(origin)
      ensures log == old(log)
              + LaunchCalls(old(Tables()), Payload(job, "execution_id"), Payload(job, "reference"), outcome, auto).0
      ensures ok == LaunchCalls(old(Tables()), Payload(job, "execution_id"), Payload(job, "reference"), outcome, auto).1
    {
      hide After, Payload, RouteCalls, StableBindings, Without, WithoutStable;
      var id, reference := Payload(job, "execution_id"), Payload(job, "reference");
      if id == "" || reference == "" || id !in execs {
        return false;
      }
      ghost var start := Tables();
      var updated := UpdateRealizationExecution(id, "starting", "", "");
      match outcome {
        case SpecFails =>
          updated := UpdateRealizationExecution(id, "failed", "", "");
          return false;
        case StartFails =>
          updated := UpdateRealizationExecution(id, "failed", "", "");
          return false;
        case HealthFails(spec) =>
          updated := UpdateRealizationExecution(id, "starting", spec.upstream, PreviewPathOf(id));
          updated := UpdateRealizationExecution(id, "failed", "", "");
          DeleteRealizationRouteBindings(id);
          return false;
        case Healthy(spec) =>
          updated := UpdateRealizationExecution(id, "starting", spec.upstream, PreviewPathOf(id));
          updated := UpdateRealizationExecution(id, "healthy", spec.upstream, PreviewPathOf(id));
          var execution := updated.value;
          SameRoutes(start, Tables(), id, spec, auto);
          SyncRoutes(id, spec, auto);
          ClearRealizationSuspension(execution.reference);
          return true;
      }
    }

    /** The first-activation check of handleLaunch, and syncBindings. */
    method SyncRoutes(id: string, spec: Spec, auto: bool)
      requires Valid() && id in execs
      modifies this
      ensures Valid() && origin == old(origin) && log == old(log) + RouteCalls(old(Tables()), id, spec, auto)
    {
      hide After, Without, WithoutStable;
      var reference := execs[id].reference;
      if auto && reference !in activations {
        ActivateRealization(reference, id);
      }
      var wanted := {Binding(id, reference, PreviewPath, "", PreviewPathOf(id), spec.upstream)};
      var stable := {};
      if reference in activations && activations[reference] == id {
        DeleteStableRouteBindingsForReference(reference);
        if spec.subdomain != "" {
          stable := stable + {Binding(id, reference, StableSubdomain, spec.subdomain, "", spec.upstream)};
        }
        if spec.pathPrefix != "" {
          stable := stable + {Binding(id, reference, StablePath, "", spec.pathPrefix, spec.upstream)};
        }
        assert stable == StableBindings(id, reference, spec.upstream, spec.subdomain, spec.pathPrefix);
      } else {
        assert wanted + stable == wanted;
      }
      ReplaceRealizationRouteBindings(id, wanted + stable);
    }

    /** handleLaunch of the API. */
    method RequestLaunch(id: string, reference: string, seedId: string, subdomain: string, pathPrefix: string,
                         jobId: string, now: nat)
      returns (ok: bool)
      requires Valid() && !Blank(jobId)
      modifies this, queue
      ensures Valid() && origin == old(origin)
      ensures Tables() == Step(old(Tables()), ApiLaunch(id, reference, seedId, subdomain, pathPrefix, jobId, now))
    {
      hide After, JobQueue.NewJob, Blank;
      ghost var start := Tables();
      AfterNothing(start);
      if id in execs {
        return false;
      }
      var execution := Execution(reference, seedId, LOCAL, "launch_requested", subdomain, pathPrefix,
                                 PreviewPathOf(id), "");
      var created := CreateRealizationExecution(id, execution);
      var input := LaunchJob("", id, reference, seedId);
      After2(start, InsertExecution(id, execution), Queue(JobQueue.EnqueueOp(input, jobId, now)));
      ok := EnqueueJob(input, jobId, now);
    }

    method EnqueueJob(input: JobQueue.EnqueueInput, freshId: string, now: nat) returns (ok: bool)
      requires Valid()
      modifies this, queue
      ensures Valid() && origin == old(origin) && log == old(log) + [Queue(JobQueue.EnqueueOp(input, freshId, now))]
      ensures Tables() == Apply(old(Tables()), Queue(JobQueue.EnqueueOp(input, freshId, now)))
    {
      hide Blank, JobQueue.NewJob;
      AfterSnoc(origin, log, Queue(JobQueue.EnqueueOp(input, freshId, now)));
      log := log + [Queue(JobQueue.EnqueueOp(input, freshId, now))];
      var r := queue.EnqueueJob(input, freshId, now);
      ok := r.Ok?;
    }

    /** ReconcileStartup. */
    method ReconcileStartup()
      requires Valid()
      modifies this, queue
      ensures Valid() && origin == old(origin) && log == old(log) + RESTART_CALLS
      ensures Tables() == Step(old(Tables()), Restart)
    {
      ghost var start := Tables();
      ghost var reset := Queue(JobQueue.ResetOp(QUEUE, RESTARTED));
      NamesTrimmed();
      hide After, JobQueue.ResetJob, TrimSpace;
      After2(start, ResetBackend(LOCAL), reset);
      ResetBackendExecutions(LOCAL);
      AfterSnoc(origin, log, reset);
      log := log + [reset];
      var done := queue.ResetRunningJobs(QUEUE, RESTARTED);
      ResetKeyed(old(queue.jobs), QUEUE, RESTARTED);
    }

    /** handleJob. */
    method HandleJob(job: JobQueue.Job, outcome: Outcome, auto: bool) returns (ok: bool)
      requires Valid()
      modifies this
      ensures Valid() && origin == old(origin)
      ensures log == old(log) + JobCalls(old(Tables()), job, outcome, auto).0
      ensures ok == JobCalls(old(Tables()), job, outcome, auto).1
    {
      hide After, LaunchCalls, StopCalls, Payload;
      if job.kind == LAUNCH {
        ok := HandleLaunch(job, outcome, auto);
      } else if job.kind == STOP {
        ok := HandleStop(job);
      } else {
        ok := false;
      }
    }

    /** The claim of Tick. */
    method ClaimJob(worker: string, now: nat) returns (job: Option<JobQueue.Job>)
      requires Valid() && !Blank(worker)
      modifies this, queue
      ensures Valid() && origin == old(origin)
      ensures var chosen := if job.Some? then Some(job.value.jobId) else None;
              && JobQueue.ValidChoice(old(queue.jobs), QUEUE, now, 1, ChosenSet(chosen))
              && log == old(log) + [ClaimCall(chosen, worker, now)]
              && Tables() == Apply(old(Tables()), ClaimCall(chosen, worker, now))
      ensures job.Some? ==> job.value.jobId in queue.jobs && queue.jobs[job.value.jobId] == job.value
    {
      NamesTrimmed();
      hide After, Blank, TrimSpace, JobQueue.ValidChoice, JobQueue.Taken;
      var claimed := queue.ClaimJobs(QUEUE, worker, 1, now);
      var items := claimed.value;
      ChoiceBound(old(queue.jobs), now, JobQueue.IdsOf(items));
      AtMostOne(queue.jobs, items);
      job := if |items| == 0 then None else Some(items[0]);
      ghost var chosen := if job.Some? then Some(job.value.jobId) else None;
      assert JobQueue.IdsOf(items) == ChosenSet(chosen);
      AfterSnoc(origin, log, ClaimCall(chosen, worker, now));
      log := log + [ClaimCall(chosen, worker, now)];
    }

    /** The completion or failure that ends a tick; it goes to the job of the trimmed id, if there is one. */
    method FinishJob(jobId: string, ok: bool, worker: string, now: nat, error: string)
      requires Valid() && !Blank(error)
      modifies this, queue
      ensures Valid() && origin == old(origin)
      ensures log == old(log) + [FinishCall(TrimSpace(jobId), ok, worker, now, error)]
      ensures Tables() == Apply(old(Tables()), FinishCall(TrimSpace(jobId), ok, worker, now, error))
    {
      hide After, Blank, TrimSpace;
      AfterSnoc(origin, log, FinishCall(TrimSpace(jobId), ok, worker, now, error));
      log := log + [FinishCall(TrimSpace(jobId), ok, worker, now, error)];
      if !ok {
        var failed := queue.FailJob(jobId, error, None, None, now);
      } else {
        var completed := queue.CompleteJob(jobId, None, now);
      }
    }

    /** Tick: claim at most one job, run its handler, and complete or fail it. */
    method TickOnce(worker: string, now: nat, outcome: Outcome, auto: bool, error: string)
      returns (claimed: Option<string>)
      requires Valid() && !Blank(worker) && !Blank(error)
      modifies this, queue
      ensures Valid() && origin == old(origin)
      ensures JobQueue.ValidChoice(old(queue.jobs), QUEUE, now, 1, ChosenSet(claimed))
      ensures log == old(log) + TickCalls(old(Tables()), claimed, worker, now, outcome, auto, error)
      ensures Tables() == After(old(Tables()), TickCalls(old(Tables()), claimed, worker, now, outcome, auto, error))
    {
      hide After, Blank, TrimSpace, JobQueue.ValidChoice, JobCalls, FinishCall, JobQueue.ClaimedJob;
      ghost var start, before := Tables(), log;
      assert start == After(origin, before);
      var job := ClaimJob(worker, now);
      claimed := if job.Some? then Some(job.value.jobId) else None;
      if job.Some? {
        ghost var middle := Tables();
        ClaimHidesNothing(start, middle.jobs, start.jobs[claimed.value], outcome, auto);
        SameWork(middle, start.jobs[claimed.value], job.value, worker, now, outcome, auto);
        var ok := HandleJob(job.value, outcome, auto);
        FinishJob(job.value.jobId, ok, worker, now, error);
      }
      ghost var calls := TickCalls(start, claimed, worker, now, outcome, auto, error);
      assert log == before + calls;
      AfterAppend(origin, before, calls);
    }
  }

  /** The statements of a tick.  The worker settles its job under the trimmed id. */
  function TickCalls(s: State, chosen: Option<string>, worker: string, now: nat, outcome: Outcome, auto: bool,
                     error: string): seq<Call> {
    [ClaimCall(chosen, worker, now)]
    + (if chosen.Some? && chosen.value in s.jobs then
         var handled := JobCalls(s, s.jobs[chosen.value], outcome, auto);
         handled.0 + [FinishCall(TrimSpace(chosen.value), handled.1, worker, now, error)]
       else [])
  }

  /** A tick settles the job it has claimed exactly when it claimed none or the job's id carries no surrounding
      spaces. */
  lemma TickIsEventIff(s: State, chosen: Option<string>, worker: string, now: nat, outcome: Outcome, auto: bool,
                       error: string)
    requires chosen.Some? ==> chosen.value in s.jobs
    ensures TickCalls(s, chosen, worker, now, outcome, auto, error)
            == EventCalls(s, Tick(chosen, worker, now, outcome, auto, error))
        <==> chosen.None? || TrimSpace(chosen.value) == chosen.value
  {
    hide TrimSpace, JobCalls, ClaimCall;
    if chosen.Some? {
      var handled := JobCalls(s, s.jobs[chosen.value], outcome, auto);
      var a := TickCalls(s, chosen, worker, now, outcome, auto, error);
      var b := EventCalls(s, Tick(chosen, worker, now, outcome, auto, error));
      assert a[|a| - 1] == FinishCall(TrimSpace(chosen.value), handled.1, worker, now, error);
      assert b[|b| - 1] == FinishCall(chosen.value, handled.1, worker, now, error);
    }
  }

  lemma ResetKeyed(jobs: JobQueue.Jobs, name: string, reason: string)
    requires JobQueue.Keyed(jobs)
    ensures JobQueue.Keyed(JobQueue.AllReset(jobs, name, reason))
  {}

  lemma ChoiceBound(jobs: JobQueue.Jobs, now: nat, chosen: set<string>)
    requires JobQueue.ValidChoice(jobs, QUEUE, now, 1, chosen)
    ensures |chosen| <= 1
  {}

  lemma AtMostOne(jobs: JobQueue.Jobs, items: seq<JobQueue.Job>)
    requires Distinct(items) && |JobQueue.IdsOf(items)| <= 1
    requires forall i :: 0 <= i < |items| ==> items[i].jobId in jobs && jobs[items[i].jobId] == items[i]
    ensures |items| <= 1
  {
    if |items| > 1 {
      var pair := {items[0].jobId, items[1].jobId};
      assert items[0] != items[1];
      assert pair <= JobQueue.IdsOf(items);
      SubsetSize(pair, JobQueue.IdsOf(items));
    }
  }

  lemma SubsetSize(a: set<string>, b: set<string>)
    requires a <= b
    ensures |a| <= |b|
  {
    assert b == a + (b - a);
  }

  lemma SameWork(s: State, a: JobQueue.Job, b: JobQueue.Job, worker: string, now: nat, outcome: Outcome, auto: bool)
    requires b == JobQueue.ClaimedJob(a, worker, now)
    ensures JobCalls(s, a, outcome, auto) == JobCalls(s, b, outcome, auto)
  {}

  lemma SameRoutes(s: State, t: State, id: string, spec: Spec, auto: bool)
    requires id in s.execs && id in t.execs && t.execs[id].reference == s.execs[id].reference
             && t.activations == s.activations
    ensures RouteCalls(t, id, spec, auto) == RouteCalls(s, id, spec, auto)
  {
    hide StableBindings;
  }

  lemma NamesTrimmed()
    ensures !Blank(QUEUE) && TrimSpace(QUEUE) == QUEUE && TrimSpace(RESTARTED) == RESTARTED
  {
    TrimSpaceFixpoint(QUEUE);
    assert RESTARTED[|RESTARTED| - 1] == 'n' && RESTARTED[0] == 'l';
    TrimSpaceFixpoint(RESTARTED);
  }
}

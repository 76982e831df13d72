/** What a launch or a stop comes to when it is asked for and then worked off, and a run in which stopping one
    execution darkens a reference that another one serves. */
module LifecycleRounds {
  import opened Wrappers
  import opened Text
  import opened Helpers
  import opened Executions
  import opened Lifecycle
  import opened LifecycleRuns
  import opened LifecycleRoutes
  import JobQueue

  ghost predicate NonePending(jobs: JobQueue.Jobs) {
    forall j :: j in jobs ==> jobs[j].status != "pending"
  }

  // ----- One job asked for and claimed -----

  lemma OnlyDue(jobs: JobQueue.Jobs, j: string, job: JobQueue.Job, now: nat)
    requires NonePending(jobs) && JobQueue.Due(job, QUEUE, now)
    ensures JobQueue.ValidChoice(jobs[j := job], QUEUE, now, 1, {j})
  {
    assert JobQueue.DueIds(jobs[j := job], QUEUE, now) == {j};
  }

  lemma NewLaunchJob(id: string, reference: string, seedId: string, jobId: string, now: nat)
    requires Trimmed(id)
    ensures var job := JobQueue.NewJob(LaunchJob("", id, reference, seedId), jobId, now);
            && job.jobId == jobId && job.kind == LAUNCH && Target(job) == id
            && Payload(job, "reference") == TrimSpace(reference) && JobQueue.Due(job, QUEUE, now)
    ensures !Blank(LAUNCH)
  {
    TrimSpaceFixpoint(id);
    TrimSpaceFixpoint(QUEUE);
    TrimSpaceFixpoint(LAUNCH);
    TrimSpaceFixpoint("");
    hide TrimSpace;
  }

  lemma NewStopJob(id: string, jobId: string, now: nat)
    requires Trimmed(id)
    ensures var job := JobQueue.NewJob(StopJob("", id), jobId, now);
            job.jobId == jobId && job.kind == STOP && Target(job) == id && JobQueue.Due(job, QUEUE, now)
    ensures !Blank(STOP)
  {
    TrimSpaceFixpoint(id);
    TrimSpaceFixpoint(QUEUE);
    TrimSpaceFixpoint(STOP);
    TrimSpaceFixpoint("");
    hide TrimSpace;
  }

  function AskedJob(asked: Event): JobQueue.Job
    requires asked.ApiLaunch?
  {
    JobQueue.NewJob(LaunchJob("", asked.id, asked.reference, asked.seedId), asked.jobId, asked.now)
  }

  /** The state once a launch has been asked for. */
  function WithAsked(s: State, asked: Event): State
    requires asked.ApiLaunch?
  {
    s.(execs := s.execs[asked.id := Requested(
                          asked.id, asked.reference, asked.seedId, asked.subdomain, asked.pathPrefix)],
       jobs := s.jobs[asked.jobId := AskedJob(asked)])
  }

  lemma LaunchAsked(s: State, asked: Event)
    requires asked.ApiLaunch? && asked.id !in s.execs && asked.jobId !in s.jobs && Trimmed(asked.id)
    ensures Step(s, asked) == WithAsked(s, asked)
  {
    NewLaunchJob(asked.id, asked.reference, asked.seedId, asked.jobId, asked.now);
    hide After, JobQueue.NewJob, Blank;
    After2(s, InsertExecution(asked.id,
                              Requested(asked.id, asked.reference, asked.seedId, asked.subdomain, asked.pathPrefix)),
           Queue(JobQueue.EnqueueOp(LaunchJob("", asked.id, asked.reference, asked.seedId), asked.jobId, asked.now)));
  }

  lemma StopAsked(s: State, id: string, jobId: string, now: nat)
    requires jobId !in s.jobs && Trimmed(id) && id != ""
    ensures Step(s, ApiStop(id, jobId, now))
         == s.(jobs := s.jobs[jobId := JobQueue.NewJob(StopJob("", id), jobId, now)])
  {
    NewStopJob(id, jobId, now);
    TrimSpaceFixpoint(id);
    hide After, JobQueue.NewJob, TrimSpace;
    After1(s, Queue(JobQueue.EnqueueOp(StopJob("", id), jobId, now)));
  }

  /** A tick hands its job to the handler, as if nothing but that job's lock had changed, and settles it. */
  lemma TickHandles(s: State, j: string, worker: string, now: nat, outcome: Outcome, auto: bool, error: string)
    requires RoutesValid(s) && j in s.jobs
    ensures var claimed := s.(jobs := JobQueue.Taken(s.jobs, {j}, worker, now));
            var r := JobCalls(claimed, s.jobs[j], outcome, auto);
            var t := After(claimed, r.0);
            RoutesValid(claimed)
            && Step(s, Tick(Some(j), worker, now, outcome, auto, error))
            == t.(jobs := JobQueue.Step(t.jobs, FinishCall(j, r.1, worker, now, error).op))
  {
    hide RoutesValid, After, JobCalls, JobQueue.Taken;
    var claim := ClaimCall(Some(j), worker, now);
    After1(s, claim);
    var claimed := Apply(s, claim);
    RoutesIgnoreJobs(s, claimed.jobs);
    ClaimHidesNothing(s, claimed.jobs, s.jobs[j], outcome, auto);
    var handled := JobCalls(s, s.jobs[j], outcome, auto);
    var finish := FinishCall(j, handled.1, worker, now, error);
    AfterAppend(s, [claim], handled.0 + [finish]);
    AfterSnoc(claimed, handled.0, finish);
  }

  ghost predicate OnlyPending(jobs: JobQueue.Jobs, j: string) {
    j in jobs && jobs[j].status == "pending" && forall i :: i in jobs && i != j ==> jobs[i].status != "pending"
  }

  function Claimed(s: State, j: string, worker: string, now: nat): State {
    s.(jobs := JobQueue.Taken(s.jobs, {j}, worker, now))
  }

  /** A tick whose handler succeeds leaves the handler's state, and no job waiting when only its own was. */
  lemma TickSucceeds(s: State, j: string, worker: string, now: nat, outcome: Outcome, auto: bool)
    requires Inv(s) && OnlyPending(s.jobs, j) && Allowed(s, Tick(Some(j), worker, now, outcome, auto, ""))
    requires JobCalls(Claimed(s, j, worker, now), s.jobs[j], outcome, auto).1
    ensures var t := Step(s, Tick(Some(j), worker, now, outcome, auto, ""));
            && RoutesValid(Claimed(s, j, worker, now)) && Inv(t) && NonePending(t.jobs) && t.jobs.Keys == s.jobs.Keys
            && t == After(Claimed(s, j, worker, now),
                          JobCalls(Claimed(s, j, worker, now), s.jobs[j], outcome, auto).0).(jobs := t.jobs)
  {
    hide After, JobCalls, RoutesValid, JobQueue.Taken, JobQueue.QueueValid, FinishCall, JobQueue.Step, LaunchesKnown,
         JobQueue.ValidChoice;
    StepKeeps(s, Tick(Some(j), worker, now, outcome, auto, ""));
    TickHandles(s, j, worker, now, outcome, auto, "");
    ClaimValidJobs(s.jobs, j, worker, now);
    FinishedJobs(s.jobs, j, true, worker, now, "");
    assert s.jobs[j].kind == LAUNCH ==> IsLaunch(s.jobs, j);
    JobHandled(Claimed(s, j, worker, now), s.jobs[j], outcome, auto);
  }

  lemma ClaimValidJobs(jobs: JobQueue.Jobs, j: string, worker: string, now: nat)
    requires JobQueue.QueueValid(jobs) && j in jobs && jobs[j].status == "pending"
    ensures JobQueue.QueueValid(JobQueue.Taken(jobs, {j}, worker, now))
  {
    hide JobQueue.JobValid;
    JobQueue.ClaimValid(jobs[j], worker, now);
  }

  // ----- Whole rounds -----

  /** The tick of a worker that starts the asked execution and finds it healthy. */
  function LaunchTick(asked: Event, worker: string, spec: Spec, auto: bool): Event
    requires asked.ApiLaunch?
  {
    Tick(Some(asked.jobId), worker, asked.now, Healthy(spec), auto, "")
  }

  /** No job waits, and the ids asked for are new. */
  ghost predicate MayAsk(s: State, asked: Event) {
    && Inv(s) && NonePending(s.jobs) && asked.ApiLaunch? && asked.id !in s.execs && asked.jobId !in s.jobs
    && Trimmed(asked.id) && asked.id != "" && !Blank(asked.reference)
  }

  lemma LaunchReady(s: State, asked: Event, worker: string, spec: Spec, auto: bool)
    requires MayAsk(s, asked) && spec.upstream != ""
    ensures var s1 := WithAsked(s, asked);
            && Allowed(s, asked) && Step(s, asked) == s1 && Inv(s1) && OnlyPending(s1.jobs, asked.jobId)
            && Allowed(s1, LaunchTick(asked, worker, spec, auto))
            && JobCalls(Claimed(s1, asked.jobId, worker, asked.now), s1.jobs[asked.jobId], Healthy(spec), auto)
               == LaunchCalls(Claimed(s1, asked.jobId, worker, asked.now), asked.id, TrimSpace(asked.reference),
                              Healthy(spec), auto)
  {
    hide Inv, LaunchCalls, TrimSpace, JobQueue.ValidChoice, Requested, JobQueue.NewJob, Payload;
    LaunchAsked(s, asked);
    StepKeeps(s, asked);
    NewLaunchJob(asked.id, asked.reference, asked.seedId, asked.jobId, asked.now);
    OnlyDue(s.jobs, asked.jobId, AskedJob(asked), asked.now);
  }

  lemma HealthyLaunchSucceeds(s: State, id: string, reference: string, spec: Spec, auto: bool)
    requires id in s.execs && id != "" && reference != ""
    ensures LaunchCalls(s, id, reference, Healthy(spec), auto).1
  {}

  lemma RunOne(s: State, e: Event)
    requires Allowed(s, e)
    ensures AllowedRun(s, [e]) && LifecycleRuns.Run(s, [e]) == Step(s, e)
  {
    hide Allowed, Step;
    assert [e][1..] == [];
  }

  lemma RunAppend(s: State, a: seq<Event>, b: seq<Event>)
    requires AllowedRun(s, a) && AllowedRun(LifecycleRuns.Run(s, a), b)
    ensures AllowedRun(s, a + b) && LifecycleRuns.Run(s, a + b) == LifecycleRuns.Run(LifecycleRuns.Run(s, a), b)
    decreases |a|
  {
    hide Allowed, Step;
    if a == [] {
      assert a + b == b;
    } else {
      assert (a + b)[1..] == a[1..] + b;
      RunAppend(Step(s, a[0]), a[1..], b);
    }
  }

  function LaunchEvents(asked: Event, worker: string, spec: Spec, auto: bool): seq<Event>
    requires asked.ApiLaunch?
  {
    [asked] + [LaunchTick(asked, worker, spec, auto)]
  }

  /** Where the two events of a launch lead. */
  lemma LaunchComesTo(s: State, asked: Event, worker: string, spec: Spec, auto: bool)
    requires MayAsk(s, asked) && spec.upstream != ""
    ensures AllowedRun(s, LaunchEvents(asked, worker, spec, auto))
    ensures var t := LifecycleRuns.Run(s, LaunchEvents(asked, worker, spec, auto));
            var claimed := Claimed(WithAsked(s, asked), asked.jobId, worker, asked.now);
            && Inv(t) && NonePending(t.jobs) && t.jobs.Keys == s.jobs.Keys + {asked.jobId}
            && RoutesValid(claimed) && t == Launched(claimed, asked.id, spec, auto).(jobs := t.jobs)
  {
    hide Inv, LaunchCalls, TrimSpace, JobQueue.Taken, After, JobCalls, JobQueue.NewJob, RoutesValid, Launched,
         Allowed, AllowedRun;
    var tick := LaunchTick(asked, worker, spec, auto);
    LaunchReady(s, asked, worker, spec, auto);
    RunOne(s, asked);
    var s1 := WithAsked(s, asked);
    var claimed := Claimed(s1, asked.jobId, worker, asked.now);
    HealthyLaunchSucceeds(claimed, asked.id, TrimSpace(asked.reference), spec, auto);
    RunOne(s1, tick);
    RunAppend(s, [asked], [tick]);
    TickSucceeds(s1, asked.jobId, worker, asked.now, Healthy(spec), auto);
    HealthyLaunchComesTo(claimed, asked.id, TrimSpace(asked.reference), spec, auto);
  }

  lemma LaunchedTables(s: State, id: string, spec: Spec, auto: bool)
    requires id in s.execs
    ensures var t, reference := Launched(s, id, spec, auto), s.execs[id].reference;
            && t.execs.Keys == s.execs.Keys && t.execs[id].reference == reference && t.execs[id].status == "healthy"
            && t.execs[id].subdomain == s.execs[id].subdomain && t.execs[id].pathPrefix == s.execs[id].pathPrefix
            && (forall x :: x in s.execs && x != id ==> t.execs[x] == s.execs[x])
            && (reference in s.activations ==> t.activations == s.activations)
            && (reference !in s.activations && auto ==> t.activations == s.activations[reference := id])
  {}

  lemma SameRoutes(s: State, t: State, reference: string)
    requires s.bindings == t.bindings
    ensures StableOf(s, reference) == StableOf(t, reference)
  {}

  /** A launch that is asked for while no job waits, and found healthy: the first one of a reference serves it,
      a later one leaves its stable routes and its activation alone. */
  lemma LaunchRound(s: State, asked: Event, worker: string, spec: Spec, auto: bool)
    requires MayAsk(s, asked) && spec.upstream != ""
    ensures AllowedRun(s, LaunchEvents(asked, worker, spec, auto))
    ensures var t := LifecycleRuns.Run(s, LaunchEvents(asked, worker, spec, auto));
            && Inv(t) && NonePending(t.jobs) && t.jobs.Keys == s.jobs.Keys + {asked.jobId}
            && t.execs.Keys == s.execs.Keys + {asked.id} && t.execs[asked.id].reference == asked.reference
            && t.execs[asked.id].status == "healthy" && t.execs[asked.id].subdomain == asked.subdomain
            && t.execs[asked.id].pathPrefix == asked.pathPrefix
            && (forall id :: id in s.execs ==> t.execs[id] == s.execs[id])
            && (asked.reference in s.activations ==>
                  t.activations == s.activations && StableOf(t, asked.reference) == StableOf(s, asked.reference))
            && (asked.reference !in s.activations && auto ==>
                  t.activations == s.activations[asked.reference := asked.id]
                  && StableOf(t, asked.reference)
                     == StableBindings(asked.id, asked.reference, spec.upstream, spec.subdomain, spec.pathPrefix))
  {
    hide Inv, StableOf, RoutesValid, Launched, AllowedRun, StableBindings, LaunchEvents, JobQueue.Taken, AskedJob;
    LaunchComesTo(s, asked, worker, spec, auto);
    var claimed := Claimed(WithAsked(s, asked), asked.jobId, worker, asked.now);
    LaunchedTables(claimed, asked.id, spec, auto);
    LaunchedStable(claimed, asked.id, spec, auto);
    SameRoutes(claimed, s, asked.reference);
    SameRoutes(Launched(claimed, asked.id, spec, auto),
               LifecycleRuns.Run(s, LaunchEvents(asked, worker, spec, auto)), asked.reference);
  }

  /** A job for the worker's queue, as a request of the API leaves it. */
  predicate WaitsFor(job: JobQueue.Job, kind: string, priority: int, payload: map<string, string>, now: nat) {
    && job.queue == "realization-execution" && job.kind == kind && job.status == "pending"
    && job.priority == priority && job.payload == payload && job.runAt == now && job.attempts == 0
    && job.maxAttempts == 10
  }

  /** A launch that is asked for under a new id stores the execution, not yet started, and a job that names it. */
  lemma LaunchRequestStored(s: State, id: string, reference: string, seedId: string, subdomain: string,
                            pathPrefix: string, jobId: string, now: nat)
    requires id !in s.execs && jobId !in s.jobs
    ensures var t := Step(s, ApiLaunch(id, reference, seedId, subdomain, pathPrefix, jobId, now));
            && t.activations == s.activations && t.bindings == s.bindings && t.suspensions == s.suspensions
            && t.execs == s.execs[id := Execution(reference, seedId, "localprocess", "launch_requested", subdomain,
                                                  pathPrefix, "/__runs/" + id + "/", "")]
            && jobId in t.jobs && t.jobs == s.jobs[jobId := t.jobs[jobId]]
            && WaitsFor(t.jobs[jobId], "realizations.launch", 120,
                        map["execution_id" := id, "reference" := reference, "seed_id" := seedId], now)
  {
    var input := LaunchJob("", id, reference, seedId);
    var call := Queue(JobQueue.EnqueueOp(input, jobId, now));
    ApiJob(s.jobs, input, jobId, now);
    hide After, JobQueue.NewJob, JobQueue.Enqueue, TrimSpace, LaunchJob;
    After2(s, InsertExecution(id, Requested(id, reference, seedId, subdomain, pathPrefix)), call);
  }

  /** A stop that is asked for stores a job that names the trimmed execution id. */
  lemma StopRequestStored(s: State, id: string, jobId: string, now: nat)
    requires !Blank(id) && jobId !in s.jobs
    ensures var t := Step(s, ApiStop(id, jobId, now));
            && jobId in t.jobs && t == s.(jobs := s.jobs[jobId := t.jobs[jobId]])
            && WaitsFor(t.jobs[jobId], "realizations.stop", 140, map["execution_id" := TrimSpace(id)], now)
  {
    var input := StopJob("", TrimSpace(id));
    ApiJob(s.jobs, input, jobId, now);
    hide After, JobQueue.NewJob, JobQueue.Enqueue, TrimSpace, StopJob;
    After1(s, Queue(JobQueue.EnqueueOp(input, jobId, now)));
  }

  lemma ApiJob(jobs: JobQueue.Jobs, input: JobQueue.EnqueueInput, jobId: string, now: nat)
    requires input.jobId == "" && input.queue == QUEUE && input.status == ""
    requires input.kind == LAUNCH || input.kind == STOP
    requires input.priority != 0 && input.runAt.None? && input.maxAttempts == 0 && jobId !in jobs
    ensures var t := JobQueue.Step(jobs, JobQueue.EnqueueOp(input, jobId, now));
            && jobId in t && t == jobs[jobId := t[jobId]]
            && WaitsFor(t[jobId], input.kind, input.priority, input.payload, now)
  {
    TrimSpaceFixpoint(QUEUE);
    TrimSpaceFixpoint(LAUNCH);
    TrimSpaceFixpoint(STOP);
    TrimSpaceFixpoint("");
    hide TrimSpace;
    JobQueue.EnqueueStoresRequest(jobs, input, jobId, now);
  }

  // ----- Stopping a sibling -----

  function StopTick(jobId: string, worker: string, now: nat): Event {
    Tick(Some(jobId), worker, now, SpecFails, true, "")
  }

  function StopEvents(id: string, jobId: string, worker: string, now: nat): seq<Event> {
    [ApiStop(id, jobId, now)] + [StopTick(jobId, worker, now)]
  }

  /** Stopping an execution that is not the active one of its reference darkens the reference. */
  lemma StopRound(s: State, id: string, jobId: string, worker: string, now: nat)
    requires Inv(s) && NonePending(s.jobs) && jobId !in s.jobs && id in s.execs && Trimmed(id) && id != ""
    requires Served(s, s.execs[id].reference) && s.activations[s.execs[id].reference] != id
    ensures AllowedRun(s, StopEvents(id, jobId, worker, now))
    ensures Dark(LifecycleRuns.Run(s, StopEvents(id, jobId, worker, now)), s.execs[id].reference)
  {
    hide RoutesValid, JobsValid, AllowedRun, StableOf, JobQueue.ValidChoice, JobQueue.NewJob, Target;
    var asked, tick, reference := ApiStop(id, jobId, now), StopTick(jobId, worker, now), s.execs[id].reference;
    var job := JobQueue.NewJob(StopJob("", id), jobId, now);
    var s1 := s.(jobs := s.jobs[jobId := job]);
    NewStopJob(id, jobId, now);
    StopAsked(s, id, jobId, now);
    StepKeeps(s, asked);
    RunOne(s, asked);
    OnlyDue(s.jobs, jobId, job, now);
    RunOne(s1, tick);
    RunAppend(s, [asked], [tick]);
    JobsDoNotRoute(s, s1, reference);
    assert StopDarkens(s1, job, reference);
    BecomesDarkIff(s1, tick, reference);
  }

  /** Launching one more execution of a served reference leaves it served by the execution it had. */
  lemma SiblingLaunched(s: State, asked: Event, worker: string, spec: Spec, auto: bool)
    requires MayAsk(s, asked) && spec.upstream != "" && Served(s, asked.reference)
    ensures AllowedRun(s, LaunchEvents(asked, worker, spec, auto))
    ensures var t, reference := LifecycleRuns.Run(s, LaunchEvents(asked, worker, spec, auto)), asked.reference;
            && Inv(t) && NonePending(t.jobs) && t.jobs.Keys == s.jobs.Keys + {asked.jobId}
            && asked.id in t.execs && t.execs[asked.id].reference == reference
            && Served(t, reference) && t.activations[reference] != asked.id
  {
    ActiveIsStored(s, asked.reference);
    hide Inv, AllowedRun, StableOf, LaunchEvents, NonePending, StableBindings, TrimSpace, LifecycleRuns.Run;
    LaunchRound(s, asked, worker, spec, auto);
  }

  /** From any reachable state in which no job waits: launching one more execution of a served reference and
      stopping it again leaves the reference activated without a stable route. */
  lemma SiblingStopDarkens(s: State, asked: Event, spec: Spec, auto: bool, jobId: string, worker: string, now: nat)
    requires MayAsk(s, asked) && spec.upstream != "" && Served(s, asked.reference)
    requires jobId !in s.jobs && jobId != asked.jobId
    ensures var launch := LaunchEvents(asked, worker, spec, auto);
            var events := launch + StopEvents(asked.id, jobId, worker, now);
            && AllowedRun(s, events) && Served(LifecycleRuns.Run(s, launch), asked.reference)
            && Dark(LifecycleRuns.Run(s, events), asked.reference)
  {
    assert Trimmed(asked.id) && asked.id != "";
    SiblingLaunched(s, asked, worker, spec, auto);
    hide MayAsk, Inv, AllowedRun, StableOf, LaunchEvents, StopEvents, NonePending, LifecycleRuns.Run, Dark, Trimmed;
    StopRound(LifecycleRuns.Run(s, LaunchEvents(asked, worker, spec, auto)), asked.id, jobId, worker, now);
    RunAppend(s, LaunchEvents(asked, worker, spec, auto), StopEvents(asked.id, jobId, worker, now));
  }

  lemma ActiveIsStored(s: State, reference: string)
    requires Inv(s) && reference in s.activations
    ensures s.activations[reference] in s.execs
  {}

  const FIRST := ApiLaunch("a", "r", "s", "app", "", "ja", 0)
  const SECOND := ApiLaunch("b", "r", "s", "app", "", "jb", 0)
  const AT := Spec("app", "", "u")

  lemma NothingYet()
    ensures MayAsk(EMPTY_STATE, FIRST)
  {
    TrimSpaceFixpoint("r");
  }

  /** A first launch that declares a stable route serves its reference, and another launch may be asked for. */
  lemma FirstServes(s: State, asked: Event, worker: string, spec: Spec, next: Event)
    requires MayAsk(s, asked) && asked.reference !in s.activations && spec.upstream != "" && spec.subdomain != ""
    requires next.ApiLaunch? && next.id !in s.execs && next.jobId !in s.jobs && next.id != asked.id
             && next.jobId != asked.jobId
    requires Trimmed(next.id) && next.id != "" && !Blank(next.reference)
    ensures var t := LifecycleRuns.Run(s, LaunchEvents(asked, worker, spec, true));
            MayAsk(t, next) && Served(t, asked.reference) && t.jobs.Keys == s.jobs.Keys + {asked.jobId}
  {
    hide Inv, AllowedRun, LaunchEvents, TrimSpace, StableOf, LifecycleRuns.Run, StableBindings, NonePending;
    LaunchRound(s, asked, worker, spec, true);
    NoneIff(asked.id, asked.reference, spec.upstream, spec.subdomain, spec.pathPrefix);
  }

  /** Such a loss is reachable: two executions of one reference are launched and the second is stopped. */
  lemma ServedReferenceGoesDark()
    ensures var launched := LaunchEvents(FIRST, "w", AT, true);
            var events := LaunchEvents(SECOND, "w", AT, true) + StopEvents("b", "js", "w", 0);
            && AllowedRun(EMPTY_STATE, launched + events)
            && Served(LifecycleRuns.Run(EMPTY_STATE, launched), "r")
            && Dark(LifecycleRuns.Run(EMPTY_STATE, launched + events), "r")
  {
    NothingYet();
    TrimSpaceFixpoint("r");
    hide MayAsk, AllowedRun, LaunchEvents, StopEvents, LifecycleRuns.Run, Served, Dark, TrimSpace;
    FirstServes(EMPTY_STATE, FIRST, "w", AT, SECOND);
    LaunchRound(EMPTY_STATE, FIRST, "w", AT, true);
    var launched := LaunchEvents(FIRST, "w", AT, true);
    var events := LaunchEvents(SECOND, "w", AT, true) + StopEvents("b", "js", "w", 0);
    SiblingStopDarkens(LifecycleRuns.Run(EMPTY_STATE, launched), SECOND, AT, true, "js", "w", 0);
    RunAppend(EMPTY_STATE, launched, events);
  }
}

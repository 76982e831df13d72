/** The tables of the execution lifecycle, the statements that change them, and the statement lists that the
    launch, stop, exit, budget, activate and restart handlers issue. */
module Executions {
  import opened Wrappers
  import opened Text
  import JobQueue

  datatype Execution = Execution(
    reference: string, seedId: string, backend: string, status: string,
    subdomain: string, pathPrefix: string, previewPath: string, upstream: string)

  datatype Kind = PreviewPath | StableSubdomain | StablePath

  datatype Binding = Binding(
    executionId: string, reference: string, kind: Kind, subdomain: string, pathPrefix: string, upstream: string)

  datatype Suspension = Suspension(executionId: string, subdomain: string, pathPrefix: string, reasonCode: string)

  /** activations: execution by reference; suspensions: the active one by reference. */
  datatype State = State(
    execs: map<string, Execution>, activations: map<string, string>, bindings: set<Binding>,
    suspensions: map<string, Suspension>, jobs: JobQueue.Jobs)

  const LOCAL := "localprocess"
  const QUEUE := "realization-execution"
  const LAUNCH := "realizations.launch"
  const STOP := "realizations.stop"

  /** One message; the verifier needs it in parts to index into it. */
  const RESTARTED := "local executor " + "restarted before " + "job completion"

  const EMPTY_STATE := State(map[], map[], {}, map[], map[])

  // ----- Statements -----

  datatype Call =
    | InsertExecution(id: string, execution: Execution)
    | UpdateExecution(id: string, status: string, upstream: string, previewPath: string)
    | Activate(reference: string, id: string)
    | DeleteActivation(reference: string)
    | DeleteStable(reference: string)
    | DeleteBindings(id: string)
    | ReplaceBindings(id: string, wanted: set<Binding>)
    | Suspend(reference: string, suspension: Suspension)
    | ClearSuspension(reference: string)
    | ResetBackend(backend: string)
    | Queue(op: JobQueue.Op)

  predicate Live(status: string) {
    status == "launch_requested" || status == "starting" || status == "healthy"
  }

  function Keep(wanted: string, stored: string): string {
    if wanted != "" then wanted else stored
  }

  function Updated(e: Execution, status: string, upstream: string, previewPath: string): Execution {
    e.(status := Keep(status, e.status), upstream := Keep(upstream, e.upstream),
       previewPath := Keep(previewPath, e.previewPath))
  }

  function Without(bindings: set<Binding>, id: string): set<Binding> {
    set b | b in bindings && b.executionId != id
  }

  function WithoutStable(bindings: set<Binding>, reference: string): set<Binding> {
    set b | b in bindings && !(b.reference == reference && b.kind != PreviewPath)
  }

  predicate RunsOn(s: State, id: string, backend: string) {
    id in s.execs && s.execs[id].backend == backend
  }

  /** What resetting a backend leaves in each table. */
  function ResetExecs(s: State, backend: string): map<string, Execution> {
    map id | id in s.execs ::
      if s.execs[id].backend == backend && Live(s.execs[id].status) then s.execs[id].(status := "stopped")
      else s.execs[id]
  }

  function ResetBindings(s: State, backend: string): set<Binding> {
    set b | b in s.bindings && !RunsOn(s, b.executionId, backend)
  }

  function ResetActivations(s: State, backend: string): map<string, string> {
    map ref | ref in s.activations && !RunsOn(s, s.activations[ref], backend) :: s.activations[ref]
  }

  function Apply(s: State, c: Call): State {
    match c
    case InsertExecution(id, e) => if id in s.execs then s else s.(execs := s.execs[id := e])
    case UpdateExecution(id, status, upstream, previewPath) =>
      if id in s.execs then s.(execs := s.execs[id := Updated(s.execs[id], status, upstream, previewPath)]) else s
    case Activate(reference, id) => s.(activations := s.activations[reference := id])
    case DeleteActivation(reference) => s.(activations := s.activations - {reference})
    case DeleteStable(reference) => s.(bindings := WithoutStable(s.bindings, reference))
    case DeleteBindings(id) => s.(bindings := Without(s.bindings, id))
    case ReplaceBindings(id, wanted) => s.(bindings := Without(s.bindings, id) + wanted)
    case Suspend(reference, x) => s.(suspensions := s.suspensions[reference := x])
    case ClearSuspension(reference) => s.(suspensions := s.suspensions - {reference})
    case ResetBackend(backend) =>
      s.(execs := ResetExecs(s, backend), bindings := ResetBindings(s, backend),
         activations := ResetActivations(s, backend))
    case Queue(op) => s.(jobs := JobQueue.Step(s.jobs, op))
  }

  /** The state after a list of statements. */
  function After(s: State, calls: seq<Call>): State {
    if calls == [] then s else Apply(After(s, calls[..|calls| - 1]), calls[|calls| - 1])
  }

  lemma AfterSnoc(s: State, calls: seq<Call>, c: Call)
    ensures After(s, calls + [c]) == Apply(After(s, calls), c)
  {
    assert (calls + [c])[..|calls|] == calls;
  }

  lemma {:induction false} AfterAppend(s: State, a: seq<Call>, b: seq<Call>)
    ensures After(s, a + b) == After(After(s, a), b)
  {
    hide Apply;
    if b == [] {
      assert a + b == a;
    } else {
      var n := |b| - 1;
      AfterAppend(s, a, b[..n]);
      AfterSnoc(s, a + b[..n], b[n]);
      assert a + b == a + b[..n] + [b[n]];
    }
  }

  // ----- Handlers, as the statements they issue -----

  function Payload(job: JobQueue.Job, key: string): string {
    if key in job.payload then TrimSpace(job.payload[key]) else ""
  }

  function PreviewPathOf(id: string): string {
    "/__runs/" + id + "/"
  }

  /** What launching a process came to; spec is what the contract and the port reservation gave. */
  datatype Spec = Spec(subdomain: string, pathPrefix: string, upstream: string)
  datatype Outcome = SpecFails | StartFails | HealthFails(spec: Spec) | Healthy(spec: Spec)

  function Names(s: State, reference: string, id: string): bool {
    reference in s.activations && s.activations[reference] == id
  }

  function PreviewBinding(id: string, reference: string, previewPath: string, upstream: string): Binding {
    Binding(id, reference, PreviewPath, "", previewPath, upstream)
  }

  function StableBindings(
      id: string, reference: string, upstream: string, subdomain: string, pathPrefix: string): set<Binding>
  {
    (if subdomain != "" then {Binding(id, reference, StableSubdomain, subdomain, "", upstream)} else {})
    + (if pathPrefix != "" then {Binding(id, reference, StablePath, "", pathPrefix, upstream)} else {})
  }

  /** handleLaunch of the worker, and whether it succeeds. */
  function LaunchCalls(s: State, id: string, reference: string, outcome: Outcome, auto: bool): (seq<Call>, bool) {
    if id == "" || reference == "" || id !in s.execs then ([], false)
    else
      var starting := [UpdateExecution(id, "starting", "", "")];
      var failed := UpdateExecution(id, "failed", "", "");
      match outcome
      case SpecFails => (starting + [failed], false)
      case StartFails => (starting + [failed], false)
      case HealthFails(spec) =>
        (starting + [UpdateExecution(id, "starting", spec.upstream, PreviewPathOf(id)), failed, DeleteBindings(id)],
         false)
      case Healthy(spec) =>
        (starting + [UpdateExecution(id, "starting", spec.upstream, PreviewPathOf(id)),
                     UpdateExecution(id, "healthy", spec.upstream, PreviewPathOf(id))]
         + RouteCalls(s, id, spec, auto) + [ClearSuspension(s.execs[id].reference)], true)
  }

  /** The activation of the first healthy execution, and syncBindings. */
  function RouteCalls(s: State, id: string, spec: Spec, auto: bool): seq<Call>
    requires id in s.execs
  {
    var reference := s.execs[id].reference;
    var first := auto && reference !in s.activations;
    var preview := {PreviewBinding(id, reference, PreviewPathOf(id), spec.upstream)};
    (if first then [Activate(reference, id)] else [])
    + (if first || Names(s, reference, id) then
         [DeleteStable(reference),
          ReplaceBindings(id, preview + StableBindings(id, reference, spec.upstream, spec.subdomain, spec.pathPrefix))]
       else [ReplaceBindings(id, preview)])
  }

  /** handleStop of the worker. */
  function StopCalls(s: State, id: string): (seq<Call>, bool) {
    if id == "" || id !in s.execs then ([], false)
    else
      var reference := s.execs[id].reference;
      ([UpdateExecution(id, "stopped", "", "")]
       + (if Names(s, reference, id) then [DeleteActivation(reference)] else [])
       + [DeleteStable(reference), DeleteBindings(id)], true)
  }

  /** handleJob. */
  function JobCalls(s: State, job: JobQueue.Job, outcome: Outcome, auto: bool): (seq<Call>, bool) {
    if job.kind == LAUNCH then LaunchCalls(s, Payload(job, "execution_id"), Payload(job, "reference"), outcome, auto)
    else if job.kind == STOP then StopCalls(s, Payload(job, "execution_id"))
    else ([], false)
  }

  predicate Terminal(status: string) {
    status == "stopped" || status == "failed" || status == "terminated"
  }

  function SuspensionOf(id: string, e: Execution, reasonCode: string): Suspension {
    Suspension(id, e.subdomain, e.pathPrefix, reasonCode)
  }

  /** handleProcessExit. */
  function ExitCalls(s: State, id: string): seq<Call> {
    if id !in s.execs || Terminal(s.execs[id].status) then []
    else
      var e := s.execs[id];
      [UpdateExecution(id, "terminated", "", ""), DeleteBindings(id)]
      + (if Names(s, e.reference, id) then [DeleteActivation(e.reference), DeleteStable(e.reference)] else [])
      + [Suspend(e.reference, SuspensionOf(id, e, "unexpected_process_exit"))]
  }

  /** terminateExecution. */
  function KillCalls(s: State, id: string, reasonCode: string): seq<Call> {
    if id !in s.execs then []
    else
      var e := s.execs[id];
      [UpdateExecution(id, "terminated", "", ""), Suspend(e.reference, SuspensionOf(id, e, reasonCode))]
      + (if Names(s, e.reference, id) then [DeleteActivation(e.reference), DeleteStable(e.reference)] else [])
      + [DeleteBindings(id)]
  }

  /** handleActivate of the API, with syncActiveRouteBindings. */
  function ActivateCalls(s: State, id: string): seq<Call> {
    if id !in s.execs || s.execs[id].status != "healthy" then []
    else
      var e := s.execs[id];
      [Activate(e.reference, id), DeleteStable(e.reference),
       ReplaceBindings(id, {PreviewBinding(id, e.reference, e.previewPath, e.upstream)}
                           + StableBindings(id, e.reference, e.upstream, e.subdomain, e.pathPrefix))]
  }

  function LaunchJob(jobId: string, id: string, reference: string, seedId: string): JobQueue.EnqueueInput {
    JobQueue.EnqueueInput(jobId, QUEUE, LAUNCH, "", "", 120, None, 0,
                          map["execution_id" := id, "reference" := reference, "seed_id" := seedId])
  }

  function StopJob(jobId: string, id: string): JobQueue.EnqueueInput {
    JobQueue.EnqueueInput(jobId, QUEUE, STOP, "", "", 140, None, 0, map["execution_id" := id])
  }

  function Requested(id: string, reference: string, seedId: string, subdomain: string, pathPrefix: string): Execution {
    Execution(reference, seedId, LOCAL, "launch_requested", subdomain, pathPrefix, PreviewPathOf(id), "")
  }

  datatype Event =
    | ApiLaunch(id: string, reference: string, seedId: string, subdomain: string, pathPrefix: string, jobId: string,
                now: nat)
    | ApiStop(id: string, jobId: string, now: nat)
    | ApiActivate(id: string)
    | ApiEnqueue(input: JobQueue.EnqueueInput, freshId: string, now: nat)
    | Tick(chosen: Option<string>, worker: string, now: nat, outcome: Outcome, auto: bool, error: string)
    | ProcessExit(id: string)
    | BudgetKill(id: string, reasonCode: string)
    | Restart

  function ChosenSet(chosen: Option<string>): set<string> {
    if chosen.Some? then {chosen.value} else {}
  }

  function ClaimCall(chosen: Option<string>, worker: string, now: nat): Call {
    Queue(JobQueue.ClaimOp(worker, QUEUE, now, 1, ChosenSet(chosen)))
  }

  function FinishCall(jobId: string, ok: bool, worker: string, now: nat, error: string): Call {
    Queue(if ok then JobQueue.CompleteOp(worker, jobId, now) else JobQueue.FailOp(worker, jobId, error, now, now))
  }

  const RESTART_CALLS := [ResetBackend(LOCAL), Queue(JobQueue.ResetOp(QUEUE, RESTARTED))]

  /** The statements one event issues, in order. */
  function EventCalls(s: State, e: Event): seq<Call> {
    match e
    case ApiLaunch(id, reference, seedId, subdomain, pathPrefix, jobId, now) =>
      if id in s.execs then []
      else [InsertExecution(id, Requested(id, reference, seedId, subdomain, pathPrefix)),
            Queue(JobQueue.EnqueueOp(LaunchJob("", id, reference, seedId), jobId, now))]
    case ApiStop(id, jobId, now) =>
      if Blank(id) then [] else [Queue(JobQueue.EnqueueOp(StopJob("", TrimSpace(id)), jobId, now))]
    case ApiActivate(id) => ActivateCalls(s, id)
    case ApiEnqueue(input, freshId, now) => [Queue(JobQueue.EnqueueOp(input, freshId, now))]
    case Tick(chosen, worker, now, outcome, auto, error) =>
      [ClaimCall(chosen, worker, now)]
      + (if chosen.Some? && chosen.value in s.jobs then
           var handled := JobCalls(s, s.jobs[chosen.value], outcome, auto);
           handled.0 + [FinishCall(chosen.value, handled.1, worker, now, error)]
         else [])
    case ProcessExit(id) => ExitCalls(s, id)
    case BudgetKill(id, reasonCode) => KillCalls(s, id, reasonCode)
    case Restart => RESTART_CALLS
  }

  /** One event, run without interference. */
  function Step(s: State, e: Event): State {
    After(s, EventCalls(s, e))
  }
}

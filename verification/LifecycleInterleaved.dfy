/** Every interleaving of the handlers' statements.

    API handlers and the executor's handlers run side by side, one statement at a time; a crash takes all of the
    executor's handlers with it and starts reconciliation.  What a handler reads of executions and routes may be as
    old as it likes.  Every statement issued is sound when it is issued, so recovery works from every point. */
module LifecycleInterleaved {
  import opened Wrappers
  import opened Text
  import opened Executions
  import opened Lifecycle
  import opened LifecycleRuns
  import opened LifecycleCrash
  import JobQueue

  /** What a handler still has to do. */
  datatype Handler =
    | Requesting(id: string, execution: Execution, op: JobQueue.Op)
    | Enqueuing(op: JobQueue.Op)
    | Activating(calls: seq<Call>)
    | Working(calls: seq<Call>, finish: Option<Call>)
    | Recovering(calls: seq<Call>)

  type Handlers = map<nat, Handler>

  datatype System = System(tables: State, handlers: Handlers)

  /** A handler begins, a handler issues its next statement, or the executor dies and starts again. */
  datatype Move =
    | Begin(p: nat, e: Event, seen: State)
    | Issue(p: nat)
    | Crash(p: nat)

  predicate InExecutor(h: Handler) {
    h.Working? || h.Recovering?
  }

  /** The handler an event makes, given what it reads; a tick has claimed its job. */
  function HandlerOf(t: State, e: Event, seen: State): Option<Handler> {
    match e
    case ApiLaunch(id, reference, seedId, subdomain, pathPrefix, jobId, now) =>
      Some(Requesting(id, Requested(id, reference, seedId, subdomain, pathPrefix),
                      JobQueue.EnqueueOp(LaunchJob("", id, reference, seedId), jobId, now)))
    case ApiStop(id, jobId, now) =>
      if Blank(id) then None else Some(Enqueuing(JobQueue.EnqueueOp(StopJob("", TrimSpace(id)), jobId, now)))
    case ApiActivate(id) => Some(Activating(ActivateCalls(seen, id)))
    case ApiEnqueue(input, freshId, now) => Some(Enqueuing(JobQueue.EnqueueOp(input, freshId, now)))
    case Tick(chosen, worker, now, outcome, auto, error) =>
      if chosen.Some? && chosen.value in t.jobs then
        var handled := JobCalls(seen, t.jobs[chosen.value], outcome, auto);
        Some(Working(handled.0, Some(FinishCall(chosen.value, handled.1, worker, now, error))))
      else None
    case ProcessExit(id) => Some(Working(ExitCalls(seen, id), None))
    case BudgetKill(id, reasonCode) => Some(Working(KillCalls(seen, id, reasonCode), None))
    case Restart => None
  }

  /** The next statement of a handler, if it has one left. */
  function Next(h: Handler): seq<Call> {
    match h
    case Requesting(id, execution, _) => [InsertExecution(id, execution)]
    case Enqueuing(op) => [Queue(op)]
    case Activating(calls) => if calls == [] then [] else [calls[0]]
    case Working(calls, finish) =>
      if calls != [] then [calls[0]] else if finish.Some? then [finish.value] else []
    case Recovering(calls) => if calls == [] then [] else [calls[0]]
  }

  /** The handler once its next statement has been issued in t; a request whose id is taken ends there. */
  function Rest(t: State, h: Handler): Option<Handler> {
    match h
    case Requesting(id, _, op) => if id in t.execs then None else Some(Enqueuing(op))
    case Enqueuing(_) => None
    case Activating(calls) => if calls == [] then None else Some(Activating(calls[1..]))
    case Working(calls, finish) =>
      if calls != [] then Some(Working(calls[1..], finish)) else None
    case Recovering(calls) => if calls == [] then None else Some(Recovering(calls[1..]))
  }

  /** The statements a move issues. */
  function Issued(sys: System, m: Move): seq<Call> {
    match m
    case Begin(_, e, _) => if e.Tick? then [ClaimCall(e.chosen, e.worker, e.now)] else []
    case Issue(p) => if p in sys.handlers then Next(sys.handlers[p]) else []
    case Crash(_) => []
  }

  function With(handlers: Handlers, p: nat, h: Option<Handler>): Handlers {
    if h.Some? then handlers[p := h.value] else handlers - {p}
  }

  /** The API's handlers, which survive a crash of the executor. */
  function Survivors(handlers: Handlers): Handlers {
    map p | p in handlers && !InExecutor(handlers[p]) :: handlers[p]
  }

  function Step(sys: System, m: Move): System {
    System(After(sys.tables, Issued(sys, m)),
           match m
           case Begin(p, e, seen) => With(sys.handlers, p, HandlerOf(sys.tables, e, seen))
           case Issue(p) =>
             if p in sys.handlers then With(sys.handlers, p, Rest(sys.tables, sys.handlers[p])) else sys.handlers
           case Crash(p) => Survivors(sys.handlers)[p := Recovering(RESTART_CALLS)])
  }

  ghost predicate Recovered(handlers: Handlers) {
    forall p :: p in handlers ==> !handlers[p].Recovering?
  }

  /** What the world may do: executions read are stored ones, other clients enqueue no launch jobs, a tick claims
      what the query allows, and the executor begins nothing before its reconciliation is over. */
  ghost predicate MayMove(sys: System, m: Move) {
    match m
    case Begin(p, e, seen) =>
      && p !in sys.handlers && !e.Restart? && Later(seen, sys.tables)
      && (e.ApiLaunch? ==> Trimmed(e.id))
      && (e.ApiEnqueue? ==> e.input.kind != LAUNCH
                            && JobQueue.Allowed(sys.tables.jobs, JobQueue.EnqueueOp(e.input, e.freshId, e.now)))
      && (e.Tick? ==> JobQueue.ValidChoice(sys.tables.jobs, QUEUE, e.now, 1, ChosenSet(e.chosen)))
      && (e.Tick? || e.ProcessExit? || e.BudgetKill? ==> Recovered(sys.handlers))
    case Issue(_) => true
    case Crash(p) => p !in sys.handlers
  }

  /** Issued alone, an event's handler issues the event's statements. */
  lemma HandlersAreEvents(t: State, e: Event)
    requires !e.Restart? && (e.ApiLaunch? ==> e.id !in t.execs)
    ensures var claim := if e.Tick? then [ClaimCall(e.chosen, e.worker, e.now)] else [];
            match HandlerOf(t, e, t)
            case None => EventCalls(t, e) == claim
            case Some(Requesting(id, execution, op)) => EventCalls(t, e) == [InsertExecution(id, execution), Queue(op)]
            case Some(Enqueuing(op)) => EventCalls(t, e) == [Queue(op)]
            case Some(Activating(calls)) => EventCalls(t, e) == calls
            case Some(Working(calls, finish)) =>
              EventCalls(t, e) == claim + calls + (if finish.Some? then [finish.value] else [])
            case Some(Recovering(_)) => false
  {
    hide JobCalls, ExitCalls, KillCalls, ActivateCalls, Blank, TrimSpace;
  }

  // ----- The invariant -----

  predicate LaunchOp(op: JobQueue.Op) {
    op.EnqueueOp? && op.input.kind == LAUNCH
  }

  function OpTarget(op: JobQueue.Op): string
    requires op.EnqueueOp?
  {
    Target(JobQueue.NewJob(op.input, op.freshId, op.now))
  }

  /** c settles a job that its worker holds. */
  ghost predicate Settles(t: State, c: Call) {
    c.Queue? && (c.op.CompleteOp? || c.op.FailOp?) && JobQueue.HeldBy(t.jobs, c.op.jobId, c.op.worker)
  }

  ghost predicate RoutesSound(t: State, calls: seq<Call>) {
    forall c :: c in calls ==> RouteCallSound(t, c)
  }

  ghost predicate HandlerSound(t: State, h: Handler) {
    match h
    case Requesting(id, execution, op) =>
      && execution.backend == LOCAL && LaunchOp(op) && JobQueue.Allowed(t.jobs, op) && OpTarget(op) == id
    case Enqueuing(op) => op.EnqueueOp? && JobQueue.Allowed(t.jobs, op) && (LaunchOp(op) ==> NewTarget(t, op))
    case Activating(calls) => RoutesSound(t, calls)
    case Working(calls, finish) => RoutesSound(t, calls) && (finish.Some? ==> Settles(t, finish.value))
    case Recovering(calls) => forall c :: c in calls ==> c.ResetBackend? || (c.Queue? && c.op.ResetOp?)
  }

  predicate Enqueues(h: Handler) {
    h.Enqueuing? && LaunchOp(h.op)
  }

  predicate Finishes(h: Handler) {
    h.Working? && h.finish.Some? && h.finish.value.Queue?
    && (h.finish.value.op.CompleteOp? || h.finish.value.op.FailOp?)
  }

  /** Two handlers neither enqueue a launch of the same execution nor settle the same job, and none works while
      another one recovers. */
  predicate Apart(a: Handler, b: Handler) {
    && (Enqueues(a) && Enqueues(b) ==> OpTarget(a.op) != OpTarget(b.op))
    && (Finishes(a) && Finishes(b) ==> a.finish.value.op.jobId != b.finish.value.op.jobId)
    && !(a.Recovering? && InExecutor(b)) && !(b.Recovering? && InExecutor(a))
  }

  ghost predicate AllApart(handlers: Handlers) {
    forall p, q :: p in handlers && q in handlers && p != q ==> Apart(handlers[p], handlers[q])
  }

  ghost predicate AllHandlersSound(t: State, handlers: Handlers) {
    forall p :: p in handlers ==> HandlerSound(t, handlers[p])
  }

  ghost predicate SysInv(sys: System) {
    Weak(sys.tables) && AllHandlersSound(sys.tables, sys.handlers) && AllApart(sys.handlers)
  }

  // ----- What one statement does to the other handlers -----

  lemma LaterAfter(t: State, c: Call)
    ensures Later(t, Apply(t, c))
  {}

  lemma RouteSoundLater(s: State, t: State, calls: seq<Call>)
    requires RoutesSound(s, calls) && Later(s, t)
    ensures RoutesSound(t, calls)
  {
    forall c | c in calls
      ensures RouteCallSound(t, c)
    {
      assert RouteCallSound(s, c);
    }
  }

  lemma HeldStays(jobs: JobQueue.Jobs, op: JobQueue.Op, j: string, worker: string)
    requires JobQueue.HeldBy(jobs, j, worker) && JobQueue.Allowed(jobs, op) && !op.ResetOp?
    requires op.CompleteOp? || op.FailOp? ==> op.jobId != j
    ensures JobQueue.HeldBy(JobQueue.Step(jobs, op), j, worker)
  {
    hide JobQueue.NewJob, Blank;
    if op.ClaimOp? { JobQueue.ChosenStored(jobs, op.queue, op.now, op.limit, op.chosen); }
  }

  lemma TargetStaysNew(t: State, op: JobQueue.Op, id: string)
    requires JobQueue.QueueValid(t.jobs) && JobQueue.Allowed(t.jobs, op) && (LaunchOp(op) ==> OpTarget(op) != id)
    requires forall j :: IsLaunch(t.jobs, j) ==> Target(t.jobs[j]) != id
    ensures var jobs' := JobQueue.Step(t.jobs, op); forall j :: IsLaunch(jobs', j) ==> Target(jobs'[j]) != id
  {
    var jobs' := JobQueue.Step(t.jobs, op);
    if op.EnqueueOp? {
      var job := JobQueue.NewJob(op.input, op.freshId, op.now);
      assert job.kind == op.input.kind;
      hide Target, JobQueue.NewJob, Blank, JobQueue.Allowed, JobQueue.QueueValid;
      forall j | IsLaunch(jobs', j)
        ensures Target(jobs'[j]) != id
      {
        if !(j in t.jobs && jobs'[j] == t.jobs[j]) { assert jobs'[j] == job; }
      }
    } else {
      OpReopensNothing(t.jobs, op);
      SameTargets(t.jobs, jobs');
      hide Target, JobQueue.Allowed, JobQueue.QueueValid, JobQueue.Step;
      forall j | IsLaunch(jobs', j)
        ensures Target(jobs'[j]) != id
      {
        assert IsLaunch(t.jobs, j);
      }
    }
  }

  /** c, issued by another handler, is none that h's next statements depend on. */
  predicate Undisturbed(h: Handler, c: Call) {
    && (Enqueues(h) && c.Queue? && LaunchOp(c.op) ==> OpTarget(c.op) != OpTarget(h.op))
    && (h.Working? && c.Queue? ==> !c.op.ResetOp?)
    && (Finishes(h) && c.Queue? && (c.op.CompleteOp? || c.op.FailOp?) ==> c.op.jobId != h.finish.value.op.jobId)
  }

  lemma EnqueueAnywhere(jobs: JobQueue.Jobs, jobs': JobQueue.Jobs, op: JobQueue.Op)
    requires op.EnqueueOp? && JobQueue.Allowed(jobs, op)
    ensures JobQueue.Allowed(jobs', op)
  {}

  lemma JobsOnlyByQueue(t: State, c: Call)
    ensures Apply(t, c).jobs == if c.Queue? then JobQueue.Step(t.jobs, c.op) else t.jobs
  {}

  lemma EnqueuerStaysSound(t: State, c: Call, op: JobQueue.Op)
    requires Weak(t) && CallSound(t, c) && HandlerSound(t, Enqueuing(op)) && Undisturbed(Enqueuing(op), c)
    ensures HandlerSound(Apply(t, c), Enqueuing(op))
  {
    LaterAfter(t, c);
    JobsOnlyByQueue(t, c);
    EnqueueAnywhere(t.jobs, Apply(t, c).jobs, op);
    hide JobQueue.Allowed, JobQueue.QueueValid, JobQueue.Step, JobQueue.NewJob, Target, Apply, LaunchesKnown;
    if LaunchOp(op) && c.Queue? { TargetStaysNew(t, c.op, OpTarget(op)); }
  }

  lemma SettlerStaysSound(t: State, c: Call, finish: Call)
    requires CallSound(t, c) && Settles(t, finish)
    requires c.Queue? ==> !c.op.ResetOp?
    requires c.Queue? && (c.op.CompleteOp? || c.op.FailOp?) ==> c.op.jobId != finish.op.jobId
    ensures Settles(Apply(t, c), finish)
  {
    JobsOnlyByQueue(t, c);
    hide JobQueue.Allowed, JobQueue.HeldBy, JobQueue.Step, Apply, NewTarget;
    if c.Queue? { HeldStays(t.jobs, c.op, finish.op.jobId, finish.op.worker); }
  }

  lemma OthersStaySound(t: State, c: Call, h: Handler)
    requires Weak(t) && CallSound(t, c) && HandlerSound(t, h) && Undisturbed(h, c)
    ensures HandlerSound(Apply(t, c), h)
  {
    hide Weak, CallSound, Apply, RouteCallSound, JobQueue.Allowed, Settles, RoutesSound, NewTarget, Later;
    LaterAfter(t, c);
    match h {
      case Requesting(_, _, op) => EnqueueAnywhere(t.jobs, Apply(t, c).jobs, op);
      case Enqueuing(op) => EnqueuerStaysSound(t, c, op);
      case Activating(calls) => RouteSoundLater(t, Apply(t, c), calls);
      case Working(calls, finish) =>
        RouteSoundLater(t, Apply(t, c), calls);
        if finish.Some? {
          SettlesFinishes(t, calls, finish.value);
          SettlerStaysSound(t, c, finish.value);
        }
      case Recovering(_) =>
    }
  }

  lemma SettlesFinishes(t: State, calls: seq<Call>, finish: Call)
    requires Settles(t, finish)
    ensures Finishes(Working(calls, Some(finish)))
  {}

  // ----- What one statement does to its own handler -----

  lemma NextKinds(t: State, h: Handler, c: Call)
    requires HandlerSound(t, h) && c in Next(h)
    ensures c.Queue? && LaunchOp(c.op) ==> Enqueues(h) && c.op == h.op
    ensures c.Queue? && c.op.ResetOp? ==> h.Recovering?
    ensures c.Queue? && (c.op.CompleteOp? || c.op.FailOp?) ==> Finishes(h) && c == h.finish.value
  {
    hide JobQueue.Allowed, NewTarget, OpTarget;
    if h.Activating? || (h.Working? && h.calls != []) { assert RouteCallSound(t, h.calls[0]); }
  }

  lemma NextSound(t: State, h: Handler, c: Call)
    requires HandlerSound(t, h) && c in Next(h)
    ensures CallSound(t, c)
  {
    hide JobQueue.NewJob, JobQueue.Allowed, OpTarget, NewTarget, CallSound;
    match h {
      case Requesting(_, _, _) => InsertSound(t, c);
      case Enqueuing(op) => QueueSound(t, op);
      case Activating(calls) => RouteSound(t, calls[0]);
      case Working(calls, _) => if calls != [] { RouteSound(t, calls[0]); } else { SettlesSound(t, c); }
      case Recovering(calls) => ResetSound(t, calls[0]);
    }
  }

  lemma InsertSound(t: State, c: Call)
    requires c.InsertExecution? && c.execution.backend == LOCAL
    ensures CallSound(t, c)
  {}

  lemma QueueSound(t: State, op: JobQueue.Op)
    requires JobQueue.Allowed(t.jobs, op) && (op.EnqueueOp? && LaunchOp(op) ==> NewTarget(t, op))
    ensures CallSound(t, Queue(op))
  {
    hide JobQueue.Allowed, NewTarget;
  }

  lemma RouteSound(t: State, c: Call)
    requires RouteCallSound(t, c)
    ensures CallSound(t, c)
  {}

  lemma SettlesSound(t: State, c: Call)
    requires Settles(t, c)
    ensures CallSound(t, c)
  {}

  lemma ResetSound(t: State, c: Call)
    requires c.ResetBackend? || (c.Queue? && c.op.ResetOp?)
    ensures CallSound(t, c)
  {}

  lemma TailSound(t: State, calls: seq<Call>, c: Call)
    requires RoutesSound(t, calls) && calls != []
    ensures RoutesSound(Apply(t, c), calls[1..]) && !calls[0].Queue?
  {
    LaterAfter(t, c);
    hide Apply, RouteCallSound, Later;
    RouteSoundLater(t, Apply(t, c), calls);
    assert RouteCallSound(t, calls[0]);
    assert !calls[0].Queue? by { NotQueue(t, calls[0]); }
  }

  lemma NotQueue(t: State, c: Call)
    requires RouteCallSound(t, c)
    ensures !c.Queue?
  {}

  lemma RequestStored(t: State, id: string, execution: Execution, op: JobQueue.Op)
    requires LaunchesKnown(t) && id !in t.execs && HandlerSound(t, Requesting(id, execution, op))
    ensures HandlerSound(Apply(t, InsertExecution(id, execution)), Enqueuing(op))
  {
    hide JobQueue.Allowed, JobQueue.NewJob, Target;
    EnqueueAnywhere(t.jobs, t.jobs, op);
    forall j | IsLaunch(t.jobs, j)
      ensures Target(t.jobs[j]) != id
    {}
  }

  lemma RestSound(t: State, h: Handler)
    requires LaunchesKnown(t) && HandlerSound(t, h) && Rest(t, h).Some?
    ensures Next(h) != [] && HandlerSound(Apply(t, Next(h)[0]), Rest(t, h).value)
  {
    hide LaunchesKnown, RoutesSound, NewTarget, LaunchOp, Settles, JobQueue.Allowed, Apply;
    match h {
      case Requesting(id, execution, op) => RequestStored(t, id, execution, op);
      case Enqueuing(_) =>
      case Activating(calls) => TailSound(t, calls, calls[0]);
      case Working(calls, finish) =>
        TailSound(t, calls, calls[0]);
        if finish.Some? {
          JobsOnlyByQueue(t, calls[0]);
          SettlesByJobs(t, Apply(t, calls[0]), finish.value);
        }
      case Recovering(calls) =>
    }
  }

  lemma SettlesByJobs(t: State, u: State, c: Call)
    requires Settles(t, c) && u.jobs == t.jobs
    ensures Settles(u, c)
  {}

  lemma RestApart(t: State, h: Handler, other: Handler)
    requires HandlerSound(t, h) && HandlerSound(t, other) && Apart(h, other) && Rest(t, h).Some?
    ensures Apart(Rest(t, h).value, other) && Apart(other, Rest(t, h).value)
  {
    hide JobQueue.Allowed, RoutesSound, Settles, JobQueue.NewJob, Target;
  }

  lemma NextLeavesUndisturbed(t: State, h: Handler, other: Handler, c: Call)
    requires HandlerSound(t, h) && c in Next(h) && Apart(h, other)
    ensures Undisturbed(other, c)
  {
    NextKinds(t, h, c);
    hide HandlerSound, LaunchOp, OpTarget, Next;
  }

  // ----- Every move -----

  lemma OthersAfter(t: State, handlers: Handlers, c: Call)
    requires Weak(t) && CallSound(t, c) && AllHandlersSound(t, handlers)
    requires forall p :: p in handlers ==> Undisturbed(handlers[p], c)
    ensures AllHandlersSound(Apply(t, c), handlers)
  {
    hide Weak, CallSound, HandlerSound, Undisturbed, Apply;
    forall p | p in handlers
      ensures HandlerSound(Apply(t, c), handlers[p])
    {
      OthersStaySound(t, c, handlers[p]);
    }
  }

  lemma AfterNext(t: State, h: Handler)
    ensures |Next(h)| <= 1
    ensures After(t, Next(h)) == if Next(h) == [] then t else Apply(t, Next(h)[0])
  {
    hide Apply, After;
    AfterNothing(t);
    if Next(h) != [] {
      assert Next(h) == [Next(h)[0]];
      After1(t, Next(h)[0]);
    }
  }

  lemma NothingLeft(t: State, h: Handler)
    requires Next(h) == []
    ensures Rest(t, h).None?
  {}

  ghost predicate ApartFromAll(h: Handler, handlers: Handlers) {
    forall q :: q in handlers ==> Apart(h, handlers[q]) && Apart(handlers[q], h)
  }

  /** One handler beside others that are in order. */
  lemma OneMore(t: State, handlers: Handlers, p: nat, h: Option<Handler>)
    requires Weak(t) && AllHandlersSound(t, handlers - {p}) && AllApart(handlers - {p})
    requires h.Some? ==> HandlerSound(t, h.value) && ApartFromAll(h.value, handlers - {p})
    ensures SysInv(System(t, With(handlers, p, h)))
  {
    hide Weak, HandlerSound, Apart;
    var after := With(handlers, p, h);
    forall q | q in after && q != p
      ensures q in handlers - {p} && after[q] == (handlers - {p})[q]
    {}
    forall x, y | x in after && y in after && x != y
      ensures Apart(after[x], after[y])
    {}
  }

  lemma RestApartFromAll(t: State, h: Handler, others: Handlers)
    requires HandlerSound(t, h) && AllHandlersSound(t, others) && ApartFromAll(h, others) && Rest(t, h).Some?
    ensures ApartFromAll(Rest(t, h).value, others)
  {
    hide HandlerSound, Apart, Rest;
    forall q | q in others
      ensures Apart(Rest(t, h).value, others[q]) && Apart(others[q], Rest(t, h).value)
    {
      RestApart(t, h, others[q]);
    }
  }

  /** Handler h issues c among the others. */
  lemma IssueOne(t: State, handlers: Handlers, p: nat, h: Handler, c: Call)
    requires Weak(t) && HandlerSound(t, h) && Next(h) == [c]
    requires AllHandlersSound(t, handlers - {p}) && AllApart(handlers - {p}) && ApartFromAll(h, handlers - {p})
    ensures CallSound(t, c) && SysInv(System(Apply(t, c), With(handlers, p, Rest(t, h))))
  {
    WeakKnows(t);
    hide Weak, CallSound, HandlerSound, Undisturbed, Apply, Apart, Next, Rest, With, SysInv, LaunchesKnown;
    var others := handlers - {p};
    NextSound(t, h, c);
    CallKeepsWeak(t, c);
    forall q | q in others
      ensures Undisturbed(others[q], c)
    {
      NextLeavesUndisturbed(t, h, others[q], c);
    }
    OthersAfter(t, others, c);
    if Rest(t, h).Some? {
      RestSound(t, h);
      RestApartFromAll(t, h, others);
    }
    OneMore(Apply(t, c), handlers, p, Rest(t, h));
  }

  lemma SetAside(handlers: Handlers, p: nat, t: State)
    requires p in handlers && AllHandlersSound(t, handlers) && AllApart(handlers)
    ensures AllHandlersSound(t, handlers - {p}) && AllApart(handlers - {p})
    ensures HandlerSound(t, handlers[p]) && ApartFromAll(handlers[p], handlers - {p})
  {
    hide HandlerSound, Apart;
  }

  lemma IssueSound(sys: System, p: nat)
    requires SysInv(sys) && p in sys.handlers
    ensures SysInv(Step(sys, Issue(p))) && AllSound(sys.tables, Issued(sys, Issue(p)))
  {
    var t, h := sys.tables, sys.handlers[p];
    SetAside(sys.handlers, p, t);
    AfterNext(t, h);
    hide Weak, CallSound, HandlerSound, Apply, AllApart, AllHandlersSound, ApartFromAll, Next, Rest, After, With;
    if Next(h) == [] {
      NothingLeft(t, h);
      OneMore(t, sys.handlers, p, None);
      assert AllSound(t, []);
    } else {
      assert Next(h) == [Next(h)[0]];
      IssueOne(t, sys.handlers, p, h, Next(h)[0]);
      OneSound(t, Next(h)[0]);
    }
  }

  lemma WeakKnows(t: State)
    requires Weak(t)
    ensures LaunchesKnown(t)
  {}

  // ----- A handler begins -----

  lemma LaunchOpFits(jobs: JobQueue.Jobs, id: string, reference: string, seedId: string, jobId: string, now: nat)
    requires Trimmed(id)
    ensures var op := JobQueue.EnqueueOp(LaunchJob("", id, reference, seedId), jobId, now);
            LaunchOp(op) && JobQueue.Allowed(jobs, op) && OpTarget(op) == id
  {
    EnqueueAllowed(jobs, LaunchJob("", id, reference, seedId), jobId, now);
    TrimSpaceFixpoint(id);
    hide JobQueue.Allowed, TrimSpace;
  }

  /** A new handler is sound in the state in which it begins, a tick's after its claim. */
  lemma BegunSound(t: State, e: Event, seen: State)
    requires !e.Tick? && Later(seen, t) && HandlerOf(t, e, seen).Some? && (e.ApiLaunch? ==> Trimmed(e.id))
    requires e.ApiEnqueue? ==> e.input.kind != LAUNCH
                               && JobQueue.Allowed(t.jobs, JobQueue.EnqueueOp(e.input, e.freshId, e.now))
    ensures HandlerSound(t, HandlerOf(t, e, seen).value)
  {
    hide RouteCallSound, JobQueue.Allowed, ExitCalls, KillCalls, ActivateCalls, Blank, TrimSpace, Later, NewTarget,
         OpTarget;
    match e {
      case ApiLaunch(id, reference, seedId, _, _, jobId, now) =>
        LaunchOpFits(t.jobs, id, reference, seedId, jobId, now);
      case ApiStop(id, jobId, now) => EnqueueAllowed(t.jobs, StopJob("", TrimSpace(id)), jobId, now);
      case ApiActivate(id) =>
        HandlerSounds(seen, id, "");
        RouteSoundLater(seen, t, ActivateCalls(seen, id));
      case ProcessExit(id) =>
        HandlerSounds(seen, id, "");
        RouteSoundLater(seen, t, ExitCalls(seen, id));
      case BudgetKill(id, reasonCode) =>
        HandlerSounds(seen, id, reasonCode);
        RouteSoundLater(seen, t, KillCalls(seen, id, reasonCode));
      case _ =>
    }
  }

  lemma LaterTransitive(a: State, b: State, c: State)
    requires Later(a, b) && Later(b, c)
    ensures Later(a, c)
  {}

  lemma TickBegunSound(t: State, e: Event, seen: State)
    requires e.Tick? && Later(seen, t) && JobQueue.ValidChoice(t.jobs, QUEUE, e.now, 1, ChosenSet(e.chosen))
    ensures var claim := ClaimCall(e.chosen, e.worker, e.now);
            var h := HandlerOf(t, e, seen);
            && CallSound(t, claim)
            && (h.Some? ==> HandlerSound(Apply(t, claim), h.value) && Finishes(h.value)
                            && h.value.finish.value.op.jobId in t.jobs
                            && t.jobs[h.value.finish.value.op.jobId].status == "pending")
  {
    var claim := ClaimCall(e.chosen, e.worker, e.now);
    LaterAfter(t, claim);
    LaterTransitive(seen, t, Apply(t, claim));
    JobQueue.ChosenStored(t.jobs, QUEUE, e.now, 1, ChosenSet(e.chosen));
    if HandlerOf(t, e, seen).Some? {
      var j := e.chosen.value;
      var handled := JobCalls(seen, t.jobs[j], e.outcome, e.auto);
      HandlerCallsSound(seen, t.jobs[j], e.outcome, e.auto);
      HolderFinishes(t.jobs, Apply(t, claim), j, handled.1, e.worker, e.now, e.error);
      hide JobCalls, RouteCallSound, JobQueue.ValidChoice, Later;
      RouteSoundLater(seen, Apply(t, claim), handled.0);
    }
  }

  /** A new handler stands apart from those there are. */
  lemma BegunApart(t: State, e: Event, seen: State, other: Handler)
    requires HandlerSound(t, other) && HandlerOf(t, e, seen).Some?
    requires e.ApiEnqueue? ==> e.input.kind != LAUNCH
    requires e.Tick? || e.ProcessExit? || e.BudgetKill? ==> !other.Recovering?
    requires e.Tick? ==> e.chosen.Some? && e.chosen.value in t.jobs && t.jobs[e.chosen.value].status == "pending"
    ensures Apart(HandlerOf(t, e, seen).value, other) && Apart(other, HandlerOf(t, e, seen).value)
  {
    hide JobCalls, ExitCalls, KillCalls, ActivateCalls, JobQueue.Allowed, RoutesSound, NewTarget, OpTarget, Blank,
         TrimSpace;
  }

  lemma BegunApartFromAll(t: State, e: Event, seen: State, others: Handlers)
    requires AllHandlersSound(t, others) && HandlerOf(t, e, seen).Some?
    requires e.ApiEnqueue? ==> e.input.kind != LAUNCH
    requires e.Tick? || e.ProcessExit? || e.BudgetKill? ==> Recovered(others)
    requires e.Tick? ==> e.chosen.Some? && e.chosen.value in t.jobs && t.jobs[e.chosen.value].status == "pending"
    ensures ApartFromAll(HandlerOf(t, e, seen).value, others)
  {
    hide HandlerSound, Apart, HandlerOf;
    forall q | q in others
      ensures Apart(HandlerOf(t, e, seen).value, others[q]) && Apart(others[q], HandlerOf(t, e, seen).value)
    {
      BegunApart(t, e, seen, others[q]);
    }
  }

  lemma NotThere(handlers: Handlers, p: nat)
    requires p !in handlers
    ensures handlers - {p} == handlers
  {}

  lemma BeginSound(sys: System, p: nat, e: Event, seen: State)
    requires SysInv(sys) && MayMove(sys, Begin(p, e, seen)) && !e.Tick?
    ensures SysInv(Step(sys, Begin(p, e, seen))) && AllSound(sys.tables, Issued(sys, Begin(p, e, seen)))
  {
    NotThere(sys.handlers, p);
    AfterNothing(sys.tables);
    assert AllSound(sys.tables, []);
    hide Weak, HandlerSound, AllApart, AllHandlersSound, ApartFromAll, HandlerOf, After, With, JobQueue.Allowed, Later,
         Trimmed, AllSound;
    if HandlerOf(sys.tables, e, seen).Some? {
      BegunSound(sys.tables, e, seen);
      BegunApartFromAll(sys.tables, e, seen, sys.handlers);
    }
    OneMore(sys.tables, sys.handlers, p, HandlerOf(sys.tables, e, seen));
  }

  lemma ClaimDisturbsNone(h: Handler, chosen: Option<string>, worker: string, now: nat)
    ensures Undisturbed(h, ClaimCall(chosen, worker, now))
  {}

  lemma TickBegins(sys: System, p: nat, e: Event, seen: State)
    requires SysInv(sys) && MayMove(sys, Begin(p, e, seen)) && e.Tick?
    ensures SysInv(Step(sys, Begin(p, e, seen))) && AllSound(sys.tables, Issued(sys, Begin(p, e, seen)))
  {
    var t, claim := sys.tables, ClaimCall(e.chosen, e.worker, e.now);
    NotThere(sys.handlers, p);
    After1(t, claim);
    TickBegunSound(t, e, seen);
    if HandlerOf(t, e, seen).Some? { TickHandler(t, e, seen); }
    hide Weak, CallSound, HandlerSound, AllApart, ApartFromAll, HandlerOf, After, With, ClaimCall, Later, Undisturbed,
         JobQueue.ValidChoice, Apply, AllSound, Finishes;
    OneSound(t, claim);
    CallKeepsWeak(t, claim);
    forall q | q in sys.handlers
      ensures Undisturbed(sys.handlers[q], claim)
    {
      ClaimDisturbsNone(sys.handlers[q], e.chosen, e.worker, e.now);
    }
    OthersAfter(t, sys.handlers, claim);
    if HandlerOf(t, e, seen).Some? { BegunApartFromAll(t, e, seen, sys.handlers); }
    OneMore(Apply(t, claim), sys.handlers, p, HandlerOf(t, e, seen));
  }

  lemma TickHandler(t: State, e: Event, seen: State)
    requires e.Tick? && HandlerOf(t, e, seen).Some?
             && JobQueue.ValidChoice(t.jobs, QUEUE, e.now, 1, ChosenSet(e.chosen))
    ensures e.chosen.Some? && e.chosen.value in t.jobs && t.jobs[e.chosen.value].status == "pending"
  {
    JobQueue.ChosenStored(t.jobs, QUEUE, e.now, 1, ChosenSet(e.chosen));
  }

  // ----- Crashes and runs -----

  lemma CrashSound(sys: System, p: nat)
    requires SysInv(sys) && p !in sys.handlers
    ensures SysInv(Step(sys, Crash(p))) && AllSound(sys.tables, Issued(sys, Crash(p)))
  {
    AfterNothing(sys.tables);
    assert AllSound(sys.tables, []);
    var left := Survivors(sys.handlers);
    var h := Recovering(RESTART_CALLS);
    NotThere(left, p);
    assert AllHandlersSound(sys.tables, left) && AllApart(left) by { SurvivorsInOrder(sys.tables, sys.handlers); }
    assert HandlerSound(sys.tables, h);
    assert ApartFromAll(h, left);
    hide Weak, HandlerSound, AllApart, AllHandlersSound, ApartFromAll, After, AllSound, Survivors;
    OneMore(sys.tables, left, p, Some(h));
  }

  lemma SurvivorsInOrder(t: State, handlers: Handlers)
    requires AllHandlersSound(t, handlers) && AllApart(handlers)
    ensures AllHandlersSound(t, Survivors(handlers)) && AllApart(Survivors(handlers))
  {
    hide HandlerSound, Apart;
  }

  /** Every move issues only sound statements and leaves every handler ready to go on. */
  lemma MoveSound(sys: System, m: Move)
    requires SysInv(sys) && MayMove(sys, m)
    ensures SysInv(Step(sys, m)) && AllSound(sys.tables, Issued(sys, m))
  {
    hide SysInv, Step, AllSound, HandlerOf, Later, JobQueue.ValidChoice, JobQueue.Allowed, Next, After;
    match m {
      case Begin(p, e, seen) => if e.Tick? { TickBegins(sys, p, e, seen); } else { BeginSound(sys, p, e, seen); }
      case Issue(p) => if p in sys.handlers { IssueSound(sys, p); } else { NobodyIssues(sys, p); }
      case Crash(p) => CrashSound(sys, p);
    }
  }

  lemma NobodyIssues(sys: System, p: nat)
    requires p !in sys.handlers
    ensures Step(sys, Issue(p)) == sys && AllSound(sys.tables, Issued(sys, Issue(p)))
  {
    AfterNothing(sys.tables);
  }

  ghost function Run(sys: System, moves: seq<Move>): System
    decreases |moves|
  {
    if moves == [] then sys else Run(Step(sys, moves[0]), moves[1..])
  }

  ghost predicate MayRun(sys: System, moves: seq<Move>)
    decreases |moves|
  {
    moves == [] || (MayMove(sys, moves[0]) && MayRun(Step(sys, moves[0]), moves[1..]))
  }

  /** All statements of a run, in the order in which they are issued. */
  ghost function AllIssued(sys: System, moves: seq<Move>): seq<Call>
    decreases |moves|
  {
    if moves == [] then [] else Issued(sys, moves[0]) + AllIssued(Step(sys, moves[0]), moves[1..])
  }

  /** Over every interleaving: the statements issued are sound one after the other, and the tables are what they
      come to. */
  lemma {:induction false} InterleavingSound(sys: System, moves: seq<Move>)
    requires SysInv(sys) && MayRun(sys, moves)
    ensures SysInv(Run(sys, moves)) && AllSound(sys.tables, AllIssued(sys, moves))
    ensures Run(sys, moves).tables == After(sys.tables, AllIssued(sys, moves))
    decreases |moves|
  {
    hide SysInv, MayMove, AllSound, Issued, After;
    AfterNothing(sys.tables);
    if moves == [] {
      NothingSound(sys.tables);
    } else {
      var next := Step(sys, moves[0]);
      MoveSound(sys, moves[0]);
      InterleavingSound(next, moves[1..]);
      AllSoundAppend(sys.tables, Issued(sys, moves[0]), AllIssued(next, moves[1..]));
      AfterAppend(sys.tables, Issued(sys, moves[0]), AllIssued(next, moves[1..]));
    }
  }

  lemma NothingSound(t: State)
    ensures AllSound(t, [])
  {}

  lemma QuietInv(s: State)
    requires Inv(s)
    ensures SysInv(System(s, map[]))
  {
    hide Inv, Weak;
    InvIsWeak(s);
  }

  /** Start with no handler at work, interleave the statements of any handlers in any way, crashes and unfinished
      recoveries included: reconciliation restores the whole lifecycle invariant, leaves no live local execution,
      loses no job and charges no attempt. */
  lemma RecoveryFromAnywhere(s: State, moves: seq<Move>)
    requires Inv(s) && MayRun(System(s, map[]), moves)
    ensures var t := Run(System(s, map[]), moves).tables;
            Weak(t) && Reconciled(t, After(t, RESTART_CALLS))
  {
    QuietInv(s);
    hide Inv, SysInv, MayRun, AllSound, Reconciled, After, Run, AllIssued;
    InterleavingSound(System(s, map[]), moves);
    RestartAfterAnyInterleaving(s, AllIssued(System(s, map[]), moves));
    assert Weak(Run(System(s, map[]), moves).tables) by { SysInvWeak(Run(System(s, map[]), moves)); }
  }

  lemma SysInvWeak(sys: System)
    requires SysInv(sys)
    ensures Weak(sys.tables)
  {}

  /** Over every interleaving each working handler still holds the job it will settle, and no two handlers hold
      the same one. */
  lemma WorkingJobIsHeld(s: State, moves: seq<Move>, p: nat, q: nat)
    requires Inv(s) && MayRun(System(s, map[]), moves)
    requires var handlers := Run(System(s, map[]), moves).handlers;
             && p in handlers && q in handlers && p != q
             && handlers[p].Working? && handlers[p].finish.Some? && handlers[q].Working? && handlers[q].finish.Some?
    ensures var sys := Run(System(s, map[]), moves);
            && Settles(sys.tables, sys.handlers[p].finish.value) && Settles(sys.tables, sys.handlers[q].finish.value)
            && sys.handlers[p].finish.value.op.jobId != sys.handlers[q].finish.value.op.jobId
  {
    QuietInv(s);
    hide Inv, MayRun, AllSound, After, Run, AllIssued;
    InterleavingSound(System(s, map[]), moves);
    var sys := Run(System(s, map[]), moves);
    hide Weak, RoutesSound, JobQueue.HeldBy;
    assert HandlerSound(sys.tables, sys.handlers[p]) && HandlerSound(sys.tables, sys.handlers[q]);
    assert Apart(sys.handlers[p], sys.handlers[q]);
  }
}

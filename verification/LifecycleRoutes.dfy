/** When an activated reference loses its stable routes.  "Activated implies stable routes exist" is not kept:
    stopping any execution of the reference deletes the stable bindings, whoever holds them. */
module LifecycleRoutes {
  import opened Wrappers
  import opened Text
  import opened Executions
  import opened Lifecycle
  import opened LifecycleRuns
  import JobQueue

  ghost function StableOf(s: State, reference: string): set<Binding> {
    set b | b in s.bindings && b.reference == reference && b.kind != PreviewPath
  }

  /** Activated with stable routes, and activated without any. */
  ghost predicate Served(s: State, reference: string) {
    reference in s.activations && StableOf(s, reference) != {}
  }

  ghost predicate Dark(s: State, reference: string) {
    reference in s.activations && StableOf(s, reference) == {}
  }

  /** The event stops an execution of an activated reference other than the active one; or activates, through
      the API or as the first healthy launch, one that declares no stable route. */
  predicate Darkens(s: State, e: Event, reference: string) {
    match e
    case Tick(chosen, _, _, outcome, auto, _) =>
      && chosen.Some? && chosen.value in s.jobs
      && (StopDarkens(s, s.jobs[chosen.value], reference)
          || LaunchDarkens(s, s.jobs[chosen.value], outcome, auto, reference))
    case ApiActivate(id) =>
      && id in s.execs && s.execs[id].status == "healthy" && s.execs[id].reference == reference
      && s.execs[id].subdomain == "" && s.execs[id].pathPrefix == ""
    case _ => false
  }

  predicate StopDarkens(s: State, job: JobQueue.Job, reference: string) {
    var id := Target(job);
    && job.kind == STOP && id != "" && id in s.execs && s.execs[id].reference == reference
    && reference in s.activations && s.activations[reference] != id
  }

  predicate LaunchDarkens(s: State, job: JobQueue.Job, outcome: Outcome, auto: bool, reference: string) {
    var id := Target(job);
    && job.kind == LAUNCH && id != "" && Payload(job, "reference") != ""
    && id in s.execs && s.execs[id].reference == reference && reference !in s.activations && auto
    && outcome.Healthy? && outcome.spec.subdomain == "" && outcome.spec.pathPrefix == ""
  }

  /** The stable bindings of a reference all belong to the execution it has activated. */
  lemma StableIsActive(s: State, reference: string, id: string)
    requires RoutesValid(s) && !Names(s, reference, id)
    ensures forall b :: b in StableOf(s, reference) ==> b.executionId != id
  {}

  lemma SunkRoutes(s: State, id: string, status: string, upstream: string, previewPath: string, reference: string)
    requires RoutesValid(s) && id in s.execs && Served(s, reference)
    ensures var t := Sunk(s, id, status, upstream, previewPath);
            reference in t.activations ==> StableOf(t, reference) == StableOf(s, reference)
    ensures reference in Sunk(s, id, status, upstream, previewPath).activations <==> !Names(s, reference, id)
  {
    var t := Sunk(s, id, status, upstream, previewPath);
    if !Names(s, reference, id) {
      StableIsActive(s, reference, id);
      assert StableOf(t, reference) == StableOf(s, reference);
    }
  }

  lemma StopRoutes(s: State, id: string, reference: string)
    requires RoutesValid(s) && !Dark(s, reference)
    ensures Dark(After(s, StopCalls(s, id).0), reference)
        <==> id != "" && id in s.execs && s.execs[id].reference == reference
             && reference in s.activations && s.activations[reference] != id
  {
    hide After;
    AfterNothing(s);
    if StopCalls(s, id).1 { StopComesTo(s, id); }
    if StopCalls(s, id).1 && reference in s.activations {
      SunkRoutes(s, id, "stopped", "", "", reference);
      var t := Sunk(s, id, "stopped", "", "");
      var u := Apply(t, DeleteStable(s.execs[id].reference));
      hide Sunk, RoutesValid;
      if s.execs[id].reference == reference {
        assert StableOf(u, reference) == {};
      } else {
        assert StableOf(u, reference) == StableOf(t, reference);
      }
    }
  }

  lemma LaunchRoutes(s: State, id: string, from: string, outcome: Outcome, auto: bool, reference: string)
    requires RoutesValid(s) && OutcomeReal(outcome) && !Dark(s, reference)
    requires id in s.execs ==> s.execs[id].status != "healthy"
    ensures Dark(After(s, LaunchCalls(s, id, from, outcome, auto).0), reference)
        <==> id != "" && from != "" && id in s.execs && s.execs[id].reference == reference
             && reference !in s.activations && auto
             && outcome.Healthy? && outcome.spec.subdomain == "" && outcome.spec.pathPrefix == ""
  {
    hide After, RouteCalls, LaunchCalls;
    if reference !in s.activations {
      FirstLaunchRoutes(s, id, from, outcome, auto, reference);
    } else {
      ServedLaunchRoutes(s, id, from, outcome, auto, reference);
    }
  }

  /** A reference that is not activated is left dark only by a first activation without routes. */
  lemma FirstLaunchRoutes(s: State, id: string, from: string, outcome: Outcome, auto: bool, reference: string)
    requires RoutesValid(s) && OutcomeReal(outcome) && reference !in s.activations
    requires id in s.execs ==> s.execs[id].status != "healthy"
    ensures Dark(After(s, LaunchCalls(s, id, from, outcome, auto).0), reference)
        <==> id != "" && from != "" && id in s.execs && s.execs[id].reference == reference && auto
             && outcome.Healthy? && outcome.spec.subdomain == "" && outcome.spec.pathPrefix == ""
  {
    hide After, RouteCalls, LaunchCalls, StableOf, RoutesValid;
    if id != "" && from != "" && id in s.execs {
      UnhealthyIsUnrouted(s, id);
      match outcome {
        case Healthy(spec) =>
          HealthyLaunchComesTo(s, id, from, spec, auto);
          LaunchedStable(s, id, spec, auto);
          NoneIff(id, s.execs[id].reference, spec.upstream, spec.subdomain, spec.pathPrefix);
        case _ => FailedLaunchComesTo(s, id, from, outcome, auto);
      }
    } else {
      AfterNothing(s);
      NoLaunch(s, id, from, outcome, auto);
    }
  }

  lemma NoneIff(id: string, reference: string, upstream: string, subdomain: string, pathPrefix: string)
    ensures StableBindings(id, reference, upstream, subdomain, pathPrefix) == {}
        <==> subdomain == "" && pathPrefix == ""
  {
    var stable := StableBindings(id, reference, upstream, subdomain, pathPrefix);
    if subdomain != "" { assert Binding(id, reference, StableSubdomain, subdomain, "", upstream) in stable; }
    if pathPrefix != "" { assert Binding(id, reference, StablePath, "", pathPrefix, upstream) in stable; }
  }

  lemma NoLaunch(s: State, id: string, from: string, outcome: Outcome, auto: bool)
    requires id == "" || from == "" || id !in s.execs
    ensures LaunchCalls(s, id, from, outcome, auto).0 == []
  {}

  lemma ServedLaunchRoutes(s: State, id: string, from: string, outcome: Outcome, auto: bool, reference: string)
    requires RoutesValid(s) && OutcomeReal(outcome) && Served(s, reference)
    requires id in s.execs ==> s.execs[id].status != "healthy"
    ensures !Dark(After(s, LaunchCalls(s, id, from, outcome, auto).0), reference)
  {
    hide After, RouteCalls;
    AfterNothing(s);
    if id != "" && from != "" && id in s.execs {
      UnhealthyIsUnrouted(s, id);
      match outcome {
        case Healthy(spec) =>
          HealthyLaunchComesTo(s, id, from, spec, auto);
          LaunchedRoutes(s, id, spec, auto, reference);
        case HealthFails(spec) =>
          FailedLaunchComesTo(s, id, from, outcome, auto);
          SunkRoutes(s, id, "failed", spec.upstream, PreviewPathOf(id), reference);
        case _ =>
          FailedLaunchComesTo(s, id, from, outcome, auto);
          SunkRoutes(s, id, "failed", "", "", reference);
      }
    }
  }

  lemma LaunchedRoutes(s: State, id: string, spec: Spec, auto: bool, reference: string)
    requires RoutesValid(s) && id in s.execs && s.execs[id].status != "healthy" && Served(s, reference)
    ensures Served(Launched(s, id, spec, auto), reference)
  {
    UnhealthyIsUnrouted(s, id);
    var t := Launched(s, id, spec, auto);
    var b :| b in StableOf(s, reference);
    assert Names(s, reference, b.executionId);
    assert b in t.bindings;
    assert b in StableOf(t, reference);
  }

  lemma TerminatedRoutes(s: State, id: string, reasonCode: string, reference: string)
    requires RoutesValid(s) && id in s.execs && !Dark(s, reference)
    ensures !Dark(Terminated(s, id, reasonCode), reference)
  {
    if reference in s.activations { ServedTerminated(s, id, reasonCode, reference); }
  }

  lemma ServedTerminated(s: State, id: string, reasonCode: string, reference: string)
    requires RoutesValid(s) && id in s.execs && Served(s, reference)
    ensures !Dark(Terminated(s, id, reasonCode), reference)
  {
    SunkRoutes(s, id, "terminated", "", "", reference);
    var sunk := Sunk(s, id, "terminated", "", "");
    var t := Terminated(s, id, reasonCode);
    if reference in t.activations {
      assert StableOf(t, reference) == StableOf(sunk, reference);
    }
  }

  lemma ActivatedRoutes(s: State, t: State, id: string, e: Execution, reference: string)
    requires BindingsSound(s) && StableActivated(s) && !Dark(s, reference) && id in s.execs && s.execs[id] == e
    requires t.activations == s.activations[e.reference := id]
    requires t.bindings == WithoutStable(Without(s.bindings, id), e.reference)
                           + StableBindings(id, e.reference, e.upstream, e.subdomain, e.pathPrefix)
                           + {PreviewBinding(id, e.reference, e.previewPath, e.upstream)}
    ensures Dark(t, reference) <==> e.reference == reference && e.subdomain == "" && e.pathPrefix == ""
  {
    if e.reference == reference {
      assert StableOf(t, reference) == StableBindings(id, e.reference, e.upstream, e.subdomain, e.pathPrefix);
      NoneIff(id, e.reference, e.upstream, e.subdomain, e.pathPrefix);
    } else {
      forall b | b in StableOf(s, reference) ensures b.executionId != id { assert b.reference != e.reference; }
      assert StableOf(t, reference) == StableOf(s, reference);
    }
  }

  lemma ActivateRoutes(s: State, id: string, reference: string)
    requires RoutesValid(s) && !Dark(s, reference)
    ensures Dark(After(s, ActivateCalls(s, id)), reference)
        <==> id in s.execs && s.execs[id].status == "healthy" && s.execs[id].reference == reference
             && s.execs[id].subdomain == "" && s.execs[id].pathPrefix == ""
  {
    hide After, Dark, BindingsSound, PreviewsExact, ActivationsSound, SuspensionsSound, AllLocal, StableActivated,
         StableBindings, Without, WithoutStable, StableOf;
    AfterNothing(s);
    if id in s.execs && s.execs[id].status == "healthy" {
      ActivateComesTo(s, id);
      ActivatedRoutes(s, After(s, ActivateCalls(s, id)), id, s.execs[id], reference);
    }
  }

  lemma JobRoutes(s: State, job: JobQueue.Job, outcome: Outcome, auto: bool, reference: string)
    requires RoutesValid(s) && OutcomeReal(outcome) && !Dark(s, reference)
    requires job.kind == LAUNCH && Target(job) in s.execs ==> s.execs[Target(job)].status != "healthy"
    ensures Dark(After(s, JobCalls(s, job, outcome, auto).0), reference)
        <==> StopDarkens(s, job, reference) || LaunchDarkens(s, job, outcome, auto, reference)
  {
    hide RoutesValid, Payload, LaunchCalls, StopCalls, After, Served, Dark;
    if job.kind == LAUNCH {
      LaunchRoutes(s, Target(job), Payload(job, "reference"), outcome, auto, reference);
    } else if job.kind == STOP {
      StopRoutes(s, Target(job), reference);
    } else {
      AfterNothing(s);
    }
  }

  // ----- What a launch, an activation and a stop achieve -----

  /** The binding leads stable traffic of the reference to the execution: requests for its subdomain, or requests
      under its path. */
  predicate LeadsTo(b: Binding, id: string, reference: string, upstream: string, subdomain: string,
                    pathPrefix: string)
  {
    && b.executionId == id && b.reference == reference && b.upstream == upstream
    && match b.kind
       case StableSubdomain => b.subdomain == subdomain != "" && b.pathPrefix == ""
       case StablePath => b.pathPrefix == pathPrefix != "" && b.subdomain == ""
       case PreviewPath => false
  }

  lemma StableBindingsLead(id: string, reference: string, upstream: string, subdomain: string, pathPrefix: string)
    ensures forall b :: b in StableBindings(id, reference, upstream, subdomain, pathPrefix)
                   <==> LeadsTo(b, id, reference, upstream, subdomain, pathPrefix)
  {}

  /** A healthy launch previews the new process at its own address, lifts the reference's suspension, and takes
      the stable routes only when nothing was active and the worker activates by itself. */
  lemma HealthyLaunchServes(s: State, id: string, from: string, spec: Spec, auto: bool)
    requires RoutesValid(s) && id in s.execs && s.execs[id].status != "healthy"
    requires id != "" && from != "" && spec.upstream != ""
    ensures var t := After(s, LaunchCalls(s, id, from, Healthy(spec), auto).0);
            var reference := s.execs[id].reference;
            && id in t.execs && t.execs[id].status == "healthy" && t.execs[id].upstream == spec.upstream
            && Binding(id, reference, PreviewPath, "", "/__runs/" + id + "/", spec.upstream) in t.bindings
            && reference !in t.suspensions
            && (reference in s.activations || !auto ==>
                  t.activations == s.activations && StableOf(t, reference) == StableOf(s, reference))
            && (reference !in s.activations && auto ==>
                  && reference in t.activations && t.activations[reference] == id
                  && forall b: Binding :: b in t.bindings && b.reference == reference && b.kind != PreviewPath
                                     <==> LeadsTo(b, id, reference, spec.upstream, spec.subdomain, spec.pathPrefix))
  {
    hide After, LaunchCalls, StableBindings;
    StableBindingsLead(id, s.execs[id].reference, spec.upstream, spec.subdomain, spec.pathPrefix);
    UnhealthyIsUnrouted(s, id);
    HealthyLaunchComesTo(s, id, from, spec, auto);
    LaunchedStable(s, id, spec, auto);
  }

  lemma LaunchedStable(s: State, id: string, spec: Spec, auto: bool)
    requires RoutesValid(s) && id in s.execs && s.execs[id].status != "healthy" && spec.upstream != ""
    ensures var t, reference := Launched(s, id, spec, auto), s.execs[id].reference;
            && (reference in s.activations || !auto ==> StableOf(t, reference) == StableOf(s, reference))
            && (reference !in s.activations && auto ==>
                  StableOf(t, reference)
                  == StableBindings(id, reference, spec.upstream, spec.subdomain, spec.pathPrefix))
  {
    hide PreviewPathOf, PreviewsExact, BindingsSound, SuspensionsSound;
    var reference := s.execs[id].reference;
    var t := Launched(s, id, spec, auto);
    UnhealthyIsUnrouted(s, id);
    if reference !in s.activations && auto {
      assert forall b :: b in t.bindings && b.kind != PreviewPath && b.reference == reference ==>
               b in StableBindings(id, reference, spec.upstream, spec.subdomain, spec.pathPrefix);
    } else {
      assert StableOf(t, reference) == StableOf(s, reference);
    }
  }

  /** Activating an execution moves the reference's stable routes to it and leaves every preview in place. */
  lemma ActivationMovesRoutes(s: State, id: string, b: Binding)
    requires RoutesValid(s) && id in s.execs && s.execs[id].status == "healthy"
    ensures var t, e := After(s, ActivateCalls(s, id)), s.execs[id];
            && e.reference in t.activations && t.activations[e.reference] == id && t.execs == s.execs
            && (b.kind == PreviewPath ==> (b in t.bindings <==> b in s.bindings))
            && (b.kind != PreviewPath && b.reference == e.reference ==>
                  (b in t.bindings <==> LeadsTo(b, id, e.reference, e.upstream, e.subdomain, e.pathPrefix)))
            && (b.kind != PreviewPath && b.reference != e.reference ==> (b in t.bindings <==> b in s.bindings))
  {
    hide After;
    var t, e := After(s, ActivateCalls(s, id)), s.execs[id];
    ActivateComesTo(s, id);
    StableBindingsLead(id, e.reference, e.upstream, e.subdomain, e.pathPrefix);
    assert StableOf(t, e.reference) == StableBindings(id, e.reference, e.upstream, e.subdomain, e.pathPrefix);
    assert b.kind == PreviewPath && b in s.bindings && b.executionId == id ==> b == PreviewOf(s, id);
  }

  /** A stop takes the execution and all stable routes of its reference out of routing, and nothing else. */
  lemma StopUnroutes(s: State, id: string, b: Binding)
    requires RoutesValid(s) && StopCalls(s, id).1
    ensures var t, reference := After(s, StopCalls(s, id).0), s.execs[id].reference;
            && id in t.execs && t.execs[id].status == "stopped" && !Names(t, reference, id)
            && (b in t.bindings <==>
                  b in s.bindings && b.executionId != id && !(b.reference == reference && b.kind != PreviewPath))
  {
    hide After;
    StopComesTo(s, id);
  }

  /** The execution is terminated and out of routing, its reference's stable routes with it if it was the active
      one, and the reference is suspended with the execution's own id and routes and this reason. */
  ghost predicate TakenDown(s: State, t: State, id: string, reasonCode: string) {
    && id in s.execs && id in t.execs && t.execs == s.execs[id := s.execs[id].(status := "terminated")]
    && var e := s.execs[id];
       var active := e.reference in s.activations && s.activations[e.reference] == id;
       && t.activations == (if active then s.activations - {e.reference} else s.activations)
       && (forall b :: b in t.bindings
             <==> b in s.bindings && b.executionId != id
                  && !(active && b.reference == e.reference && b.kind != PreviewPath))
       && e.reference in t.suspensions
       && t.suspensions[e.reference].executionId == id
       && t.suspensions[e.reference].subdomain == e.subdomain
       && t.suspensions[e.reference].pathPrefix == e.pathPrefix
       && t.suspensions[e.reference].reasonCode == reasonCode
       && t.suspensions - {e.reference} == s.suspensions - {e.reference}
  }

  /** A process that exits takes its execution down, unless it is down already. */
  lemma ExitTakesDown(s: State, id: string)
    requires id in s.execs
    ensures var status := s.execs[id].status;
            if status == "stopped" || status == "failed" || status == "terminated"
            then After(s, ExitCalls(s, id)) == s
            else TakenDown(s, After(s, ExitCalls(s, id)), id, "unexpected_process_exit")
  {
    hide After, ExitCalls, Terminated, TakenDown;
    AfterNothing(s);
    if Terminal(s.execs[id].status) {
      NoExit(s, id);
    } else {
      ExitComesTo(s, id);
      TerminatedIsTakenDown(s, id, "unexpected_process_exit");
    }
  }

  lemma TerminatedIsTakenDown(s: State, id: string, reasonCode: string)
    requires id in s.execs
    ensures TakenDown(s, Terminated(s, id, reasonCode), id, reasonCode)
  {
    var e, t := s.execs[id], Terminated(s, id, reasonCode);
    assert Updated(e, "terminated", "", "") == e.(status := "terminated");
    assert t.suspensions == s.suspensions[e.reference := SuspensionOf(id, e, reasonCode)];
  }

  /** So does a budget kill, in whatever status the execution is, for its own reason. */
  lemma KillTakesDown(s: State, id: string, reasonCode: string)
    requires id in s.execs
    ensures TakenDown(s, After(s, KillCalls(s, id, reasonCode)), id, reasonCode)
  {
    hide After, KillCalls, Terminated, TakenDown;
    KillComesTo(s, id, reasonCode);
    TerminatedIsTakenDown(s, id, reasonCode);
  }

  lemma JobsDoNotRoute(s: State, t: State, reference: string)
    requires t.activations == s.activations && t.bindings == s.bindings
    ensures Dark(t, reference) <==> Dark(s, reference)
  {
    assert StableOf(t, reference) == StableOf(s, reference);
  }

  lemma TickRoutes(s: State, e: Event, reference: string)
    requires e.Tick? && Inv(s) && Allowed(s, e) && !Dark(s, reference)
    ensures Dark(Step(s, e), reference) <==> Darkens(s, e, reference)
  {
    var Tick(chosen, worker, now, outcome, auto, error) := e;
    hide RoutesValid, After, JobCalls, JobQueue.QueueValid, JobQueue.ValidChoice, Served, Dark, Target, Payload;
    var claim := ClaimCall(chosen, worker, now);
    After1(s, claim);
    var claimed := Apply(s, claim);
    AfterNothing(claimed);
    JobsDoNotRoute(s, claimed, reference);
    JobQueue.ChosenStored(s.jobs, QUEUE, now, 1, ChosenSet(chosen));
    RoutesIgnoreJobs(s, claimed.jobs);
    if chosen.None? {
      AfterAppend(s, [claim], []);
    } else {
      var j := chosen.value;
      var handled := JobCalls(s, s.jobs[j], outcome, auto);
      var finish := FinishCall(j, handled.1, worker, now, error);
      assert s.jobs[j].kind == LAUNCH ==> IsLaunch(s.jobs, j);
      ClaimHidesNothing(s, claimed.jobs, s.jobs[j], outcome, auto);
      JobRoutes(claimed, s.jobs[j], outcome, auto, reference);
      var t := After(claimed, handled.0);
      AfterAppend(s, [claim], handled.0 + [finish]);
      AfterSnoc(claimed, handled.0, finish);
      JobsDoNotRoute(t, Apply(t, finish), reference);
    }
  }

  /** From any reachable state and for every event: a reference that is not activated without stable routes
      comes to be so exactly when the event darkens it. */
  lemma BecomesDarkIff(s: State, e: Event, reference: string)
    requires Inv(s) && Allowed(s, e) && !Dark(s, reference)
    ensures Dark(Step(s, e), reference) <==> Darkens(s, e, reference)
  {
    hide RoutesValid, After, JobsValid, Served, Dark, ExitCalls, KillCalls, ActivateCalls, JobCalls, Blank, Allowed;
    AfterNothing(s);
    match e {
      case ApiLaunch(id, ref, seedId, subdomain, pathPrefix, jobId, now) =>
        if id !in s.execs {
          var insert := InsertExecution(id, Requested(id, ref, seedId, subdomain, pathPrefix));
          var enqueue := Queue(JobQueue.EnqueueOp(LaunchJob("", id, ref, seedId), jobId, now));
          After2(s, insert, enqueue);
          JobsDoNotRoute(s, Apply(Apply(s, insert), enqueue), reference);
        }
      case ApiStop(id, jobId, now) =>
        var enqueue := Queue(JobQueue.EnqueueOp(StopJob("", TrimSpace(id)), jobId, now));
        After1(s, enqueue);
        JobsDoNotRoute(s, Apply(s, enqueue), reference);
      case ApiActivate(id) => ActivateRoutes(s, id, reference);
      case ApiEnqueue(input, freshId, now) =>
        After1(s, Queue(JobQueue.EnqueueOp(input, freshId, now)));
        JobsDoNotRoute(s, Apply(s, Queue(JobQueue.EnqueueOp(input, freshId, now))), reference);
      case Tick(chosen, worker, now, outcome, auto, error) =>
        TickRoutes(s, e, reference);
      case ProcessExit(id) =>
        if id in s.execs && !Terminal(s.execs[id].status) {
          ExitComesTo(s, id);
          TerminatedRoutes(s, id, "unexpected_process_exit", reference);
        } else {
          assert ExitCalls(s, id) == [] by { NoExit(s, id); }
        }
      case BudgetKill(id, reasonCode) =>
        if id in s.execs {
          KillComesTo(s, id, reasonCode);
          TerminatedRoutes(s, id, reasonCode, reference);
        } else {
          assert KillCalls(s, id, reasonCode) == [] by { NoKill(s, id, reasonCode); }
        }
      case Restart =>
        RestartRoutes(s, reference);
    }
  }

  lemma NoExit(s: State, id: string)
    requires id !in s.execs || Terminal(s.execs[id].status)
    ensures ExitCalls(s, id) == []
  {}

  lemma NoKill(s: State, id: string, reasonCode: string)
    requires id !in s.execs
    ensures KillCalls(s, id, reasonCode) == []
  {}

  lemma RestartRoutes(s: State, reference: string)
    requires RoutesValid(s)
    ensures !Dark(After(s, RESTART_CALLS), reference)
  {
    RestartComesTo(s);
  }
}

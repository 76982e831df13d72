/** What every launch, stop, late process exit, budget kill, activation and restart keeps, when handlers run
    one after the other. */
module Lifecycle {
  import opened Wrappers
  import opened Text
  import opened Helpers
  import opened Executions
  import JobQueue

  // ----- The invariant -----

  /** Every binding is for a stored execution, with its reference and address; a preview binding is the
      execution's own. */
  ghost predicate BindingsSound(s: State) {
    forall b :: b in s.bindings ==>
      && b.executionId in s.execs && b.reference == s.execs[b.executionId].reference
      && b.upstream == s.execs[b.executionId].upstream
      && (b.kind == PreviewPath ==> b == PreviewOf(s, b.executionId))
  }

  ghost function PreviewOf(s: State, id: string): Binding
    requires id in s.execs
  {
    PreviewBinding(id, s.execs[id].reference, s.execs[id].previewPath, s.execs[id].upstream)
  }

  /** An execution has its preview binding exactly when it is healthy. */
  ghost predicate PreviewsExact(s: State) {
    forall id :: id in s.execs ==> (PreviewOf(s, id) in s.bindings <==> s.execs[id].status == "healthy")
  }

  /** Stable bindings belong to the execution their reference's activation names. */
  ghost predicate StableActivated(s: State) {
    forall b :: b in s.bindings && b.kind != PreviewPath ==> Names(s, b.reference, b.executionId)
  }

  /** An activation names a healthy execution of its own reference. */
  ghost predicate ActivationsSound(s: State) {
    forall ref :: ref in s.activations ==>
      s.activations[ref] in s.execs && s.execs[s.activations[ref]].status == "healthy"
      && s.execs[s.activations[ref]].reference == ref
  }

  /** An active suspension names an execution of its own reference that is not healthy. */
  ghost predicate SuspensionsSound(s: State) {
    forall ref :: ref in s.suspensions ==>
      s.suspensions[ref].executionId in s.execs && s.execs[s.suspensions[ref].executionId].status != "healthy"
      && s.execs[s.suspensions[ref].executionId].reference == ref
  }

  ghost predicate AllLocal(s: State) {
    forall id :: id in s.execs ==> s.execs[id].backend == LOCAL
  }

  ghost predicate RoutesValid(s: State) {
    && BindingsSound(s) && PreviewsExact(s) && StableActivated(s) && ActivationsSound(s) && SuspensionsSound(s)
    && AllLocal(s)
  }

  function Target(job: JobQueue.Job): string {
    Payload(job, "execution_id")
  }

  predicate IsLaunch(jobs: JobQueue.Jobs, j: string) {
    j in jobs && jobs[j].kind == LAUNCH
  }

  /** Every launch job is for a stored execution, and each execution has at most one. */
  ghost predicate LaunchesKnown(s: State) {
    && (forall j :: IsLaunch(s.jobs, j) ==> Target(s.jobs[j]) in s.execs)
    && (forall i, j :: IsLaunch(s.jobs, i) && IsLaunch(s.jobs, j) && i != j ==> Target(s.jobs[i]) != Target(s.jobs[j]))
  }

  /** While its launch job is waiting or running, an execution is not healthy. */
  ghost predicate LaunchesOpen(s: State) {
    forall j :: IsLaunch(s.jobs, j) && (s.jobs[j].status == "pending" || s.jobs[j].status == "running") ==>
      Target(s.jobs[j]) in s.execs && s.execs[Target(s.jobs[j])].status != "healthy"
  }

  ghost predicate JobsValid(s: State) {
    JobQueue.QueueValid(s.jobs) && LaunchesKnown(s) && LaunchesOpen(s)
  }

  ghost predicate Inv(s: State) {
    RoutesValid(s) && JobsValid(s)
  }

  /** What the outside world may do: ids come trimmed, addresses are not empty, other clients enqueue no launch
      jobs, and a tick claims what the query allows. */
  ghost predicate Allowed(s: State, e: Event) {
    match e
    case ApiLaunch(id, _, _, _, _, _, _) => Trimmed(id)
    case ApiEnqueue(input, freshId, now) =>
      input.kind != LAUNCH && JobQueue.Allowed(s.jobs, JobQueue.EnqueueOp(input, freshId, now))
    case Tick(chosen, _, now, outcome, _, _) =>
      && JobQueue.ValidChoice(s.jobs, QUEUE, now, 1, ChosenSet(chosen))
      && (outcome.HealthFails? || outcome.Healthy? ==> outcome.spec.upstream != "")
    case _ => true
  }

  // ----- Taking an execution down -----

  /** The execution is no longer healthy; its bindings and an activation naming it are gone. */
  function Sunk(s: State, id: string, status: string, upstream: string, previewPath: string): State
    requires id in s.execs
  {
    var reference := s.execs[id].reference;
    s.(execs := s.execs[id := Updated(s.execs[id], status, upstream, previewPath)],
       activations := if Names(s, reference, id) then s.activations - {reference} else s.activations,
       bindings := Without(s.bindings, id))
  }

  lemma SunkKeeps(s: State, id: string, status: string, upstream: string, previewPath: string)
    requires RoutesValid(s) && id in s.execs && status != "healthy" && status != ""
    ensures RoutesValid(Sunk(s, id, status, upstream, previewPath))
  {
    var s' := Sunk(s, id, status, upstream, previewPath);
    assert PreviewsExact(s') by {
      forall x | x in s'.execs ensures PreviewOf(s', x) in s'.bindings <==> s'.execs[x].status == "healthy" {
        if x != id { assert PreviewOf(s', x) == PreviewOf(s, x); }
      }
    }
    assert BindingsSound(s') by {
      forall b | b in s'.bindings
        ensures b.executionId in s'.execs && b.executionId != id
                && (b.kind == PreviewPath ==> b == PreviewOf(s', b.executionId))
      {}
    }
  }

  lemma DropStableKeeps(s: State, reference: string)
    requires RoutesValid(s)
    ensures RoutesValid(Apply(s, DeleteStable(reference)))
  {
    var s' := Apply(s, DeleteStable(reference));
    forall id | id in s'.execs ensures PreviewOf(s', id) == PreviewOf(s, id) {}
  }

  lemma SuspendKeeps(s: State, reference: string, x: Suspension)
    requires RoutesValid(s) && x.executionId in s.execs
    requires s.execs[x.executionId].status != "healthy" && s.execs[x.executionId].reference == reference
    ensures RoutesValid(Apply(s, Suspend(reference, x)))
  {
    var s' := Apply(s, Suspend(reference, x));
    forall id | id in s'.execs ensures PreviewOf(s', id) == PreviewOf(s, id) {}
  }

  /** An execution that is not healthy has no bindings and no activation. */
  lemma UnhealthyIsUnrouted(s: State, id: string)
    requires RoutesValid(s) && id in s.execs && s.execs[id].status != "healthy"
    ensures Without(s.bindings, id) == s.bindings && !Names(s, s.execs[id].reference, id)
  {
    forall b | b in s.bindings ensures b.executionId != id {
      if b.kind == PreviewPath { assert b == PreviewOf(s, b.executionId); }
    }
  }

  // ----- Bringing an execution up -----

  /** Its preview binding, and, when it is the active one, the stable bindings in place of any other. */
  function Routed(s: State, id: string, e: Execution, activations: map<string, string>, stable: set<Binding>): State {
    State(s.execs[id := e], activations,
          (if e.reference in activations && activations[e.reference] == id
           then WithoutStable(Without(s.bindings, id), e.reference) + stable else Without(s.bindings, id))
          + {PreviewBinding(id, e.reference, e.previewPath, e.upstream)},
          s.suspensions - {e.reference}, s.jobs)
  }

  lemma RoutedKeeps(s: State, id: string, e: Execution, activations: map<string, string>, subdomain: string,
                    pathPrefix: string)
    requires RoutesValid(s) && id in s.execs && e.status == "healthy" && e.backend == LOCAL
             && e.reference == s.execs[id].reference
    requires activations == s.activations || activations == s.activations[e.reference := id]
    ensures RoutesValid(Routed(s, id, e, activations,
                               StableBindings(id, e.reference, e.upstream, subdomain, pathPrefix)))
  {
    hide BindingsSound, PreviewsExact, StableActivated, ActivationsSound, SuspensionsSound, AllLocal, Routed,
         StableBindings;
    RoutedBindings(s, id, e, activations, subdomain, pathPrefix);
    RoutedStable(s, id, e, activations, subdomain, pathPrefix);
    RoutedOthers(s, id, e, activations, StableBindings(id, e.reference, e.upstream, subdomain, pathPrefix));
  }

  lemma RoutedOthers(s: State, id: string, e: Execution, activations: map<string, string>, stable: set<Binding>)
    requires ActivationsSound(s) && SuspensionsSound(s) && AllLocal(s)
    requires id in s.execs && e.status == "healthy" && e.backend == LOCAL && e.reference == s.execs[id].reference
    requires activations == s.activations || activations == s.activations[e.reference := id]
    ensures var s' := Routed(s, id, e, activations, stable);
            ActivationsSound(s') && SuspensionsSound(s') && AllLocal(s')
  {}

  lemma RoutedBindings(s: State, id: string, e: Execution, activations: map<string, string>, subdomain: string,
                       pathPrefix: string)
    requires BindingsSound(s) && PreviewsExact(s) && id in s.execs && e.status == "healthy"
             && e.reference == s.execs[id].reference
    ensures var s' := Routed(s, id, e, activations, StableBindings(id, e.reference, e.upstream, subdomain, pathPrefix));
            BindingsSound(s') && PreviewsExact(s')
  {
    var s' := Routed(s, id, e, activations, StableBindings(id, e.reference, e.upstream, subdomain, pathPrefix));
    forall x | x in s'.execs ensures PreviewOf(s', x) in s'.bindings <==> s'.execs[x].status == "healthy" {
      if x != id { assert PreviewOf(s', x) == PreviewOf(s, x); }
    }
    forall b | b in s'.bindings && b.executionId != id ensures b in s.bindings {}
  }

  lemma RoutedStable(s: State, id: string, e: Execution, activations: map<string, string>, subdomain: string,
                     pathPrefix: string)
    requires BindingsSound(s) && StableActivated(s) && id in s.execs
    requires activations == s.activations || activations == s.activations[e.reference := id]
    ensures StableActivated(Routed(s, id, e, activations,
                                   StableBindings(id, e.reference, e.upstream, subdomain, pathPrefix)))
  {
    var s' := Routed(s, id, e, activations, StableBindings(id, e.reference, e.upstream, subdomain, pathPrefix));
    forall b | b in s'.bindings && b.kind != PreviewPath ensures Names(s', b.reference, b.executionId) {
      if b.executionId != id { assert b in s.bindings && Names(s, b.reference, b.executionId); }
    }
  }

  // ----- What each handler's statements come to -----

  lemma After1(s: State, a: Call)
    ensures After(s, [a]) == Apply(s, a)
  {
    hide Apply;
    assert [a][..0] == [];
  }

  lemma AfterNothing(s: State)
    ensures After(s, []) == s
  {}

  lemma After2(s: State, a: Call, b: Call)
    ensures After(s, [a, b]) == Apply(Apply(s, a), b)
  {
    hide Apply;
    assert [a, b][..1] == [a];
    After1(s, a);
  }

  lemma After3(s: State, a: Call, b: Call, c: Call)
    ensures After(s, [a, b, c]) == Apply(Apply(Apply(s, a), b), c)
  {
    hide Apply;
    assert [a, b, c][..2] == [a, b];
    After2(s, a, b);
  }

  lemma SetsCommute(bindings: set<Binding>, id: string, reference: string)
    ensures Without(WithoutStable(bindings, reference), id) == WithoutStable(Without(bindings, id), reference)
  {}

  lemma AfterParts(s: State, a: seq<Call>, b: seq<Call>, c: seq<Call>)
    ensures After(s, a + b + c) == After(After(After(s, a), b), c)
  {
    hide After;
    AfterAppend(s, a + b, c);
    AfterAppend(s, a, b);
  }

  lemma ReplaceCommutes(bindings: set<Binding>, id: string, reference: string, preview: set<Binding>,
                        stable: set<Binding>)
    ensures Without(WithoutStable(bindings, reference), id) + (preview + stable)
         == WithoutStable(Without(bindings, id), reference) + stable + preview
  {}

  lemma StopComesTo(s: State, id: string)
    requires StopCalls(s, id).1
    ensures id in s.execs
    ensures After(s, StopCalls(s, id).0) == Apply(Sunk(s, id, "stopped", "", ""), DeleteStable(s.execs[id].reference))
  {
    if Names(s, s.execs[id].reference, id) {
      ActiveStopComesTo(s, id);
    } else {
      OtherStopComesTo(s, id);
    }
  }

  lemma ActiveStopComesTo(s: State, id: string)
    requires StopCalls(s, id).1 && Names(s, s.execs[id].reference, id)
    ensures After(s, StopCalls(s, id).0) == Apply(Sunk(s, id, "stopped", "", ""), DeleteStable(s.execs[id].reference))
  {
    hide After, Without, WithoutStable, Updated;
    var reference := s.execs[id].reference;
    var unroute := [DeleteActivation(reference), DeleteStable(reference), DeleteBindings(id)];
    assert StopCalls(s, id).0 == [UpdateExecution(id, "stopped", "", "")] + unroute;
    hide StopCalls;
    SetsCommute(s.bindings, id, reference);
    AfterAppend(s, [UpdateExecution(id, "stopped", "", "")], unroute);
    After1(s, UpdateExecution(id, "stopped", "", ""));
    After3(Apply(s, UpdateExecution(id, "stopped", "", "")), unroute[0], unroute[1], unroute[2]);
  }

  lemma OtherStopComesTo(s: State, id: string)
    requires StopCalls(s, id).1 && !Names(s, s.execs[id].reference, id)
    ensures After(s, StopCalls(s, id).0) == Apply(Sunk(s, id, "stopped", "", ""), DeleteStable(s.execs[id].reference))
  {
    hide After, Without, WithoutStable, Updated;
    var reference := s.execs[id].reference;
    var down := UpdateExecution(id, "stopped", "", "");
    assert StopCalls(s, id).0 == [down, DeleteStable(reference), DeleteBindings(id)];
    hide StopCalls, Names;
    SetsCommute(s.bindings, id, reference);
    After3(s, down, DeleteStable(reference), DeleteBindings(id));
  }

  /** Where an exit or a kill leaves the system. */
  function Terminated(s: State, id: string, reasonCode: string): State
    requires id in s.execs
  {
    var e := s.execs[id];
    var sunk := Sunk(s, id, "terminated", "", "");
    Apply(if Names(s, e.reference, id) then Apply(sunk, DeleteStable(e.reference)) else sunk,
          Suspend(e.reference, SuspensionOf(id, e, reasonCode)))
  }

  lemma TerminatedKeeps(s: State, id: string, reasonCode: string)
    requires RoutesValid(s) && id in s.execs
    ensures RoutesValid(Terminated(s, id, reasonCode))
  {
    hide RoutesValid;
    var e, sunk := s.execs[id], Sunk(s, id, "terminated", "", "");
    SunkKeeps(s, id, "terminated", "", "");
    DropStableKeeps(sunk, e.reference);
    SuspendKeeps(if Names(s, e.reference, id) then Apply(sunk, DeleteStable(e.reference)) else sunk,
                 e.reference, SuspensionOf(id, e, reasonCode));
  }

  lemma ExitComesTo(s: State, id: string)
    requires id in s.execs && !Terminal(s.execs[id].status)
    ensures After(s, ExitCalls(s, id)) == Terminated(s, id, "unexpected_process_exit")
  {
    hide After, Without, WithoutStable, Updated;
    var e := s.execs[id];
    var named := Names(s, e.reference, id);
    var down := UpdateExecution(id, "terminated", "", "");
    var suspend := Suspend(e.reference, SuspensionOf(id, e, "unexpected_process_exit"));
    var unroute := [DeleteActivation(e.reference), DeleteStable(e.reference)];
    AfterParts(s, [down, DeleteBindings(id)], if named then unroute else [], [suspend]);
    After2(s, down, DeleteBindings(id));
    var t := Apply(Apply(s, down), DeleteBindings(id));
    if named {
      After2(t, DeleteActivation(e.reference), DeleteStable(e.reference));
      After1(After(t, unroute), suspend);
    } else {
      AfterNothing(t);
      After1(t, suspend);
    }
  }

  lemma KillComesTo(s: State, id: string, reasonCode: string)
    requires id in s.execs
    ensures After(s, KillCalls(s, id, reasonCode)) == Terminated(s, id, reasonCode)
  {
    var e := s.execs[id];
    var down, x := UpdateExecution(id, "terminated", "", ""), SuspensionOf(id, e, reasonCode);
    if Names(s, e.reference, id) {
      ActiveKillComesTo(s, id, "terminated", x);
      assert KillCalls(s, id, reasonCode)
          == [down, Suspend(e.reference, x)]
             + [DeleteActivation(e.reference), DeleteStable(e.reference), DeleteBindings(id)];
    } else {
      OtherKillComesTo(s, id, "terminated", x);
      assert KillCalls(s, id, reasonCode) == [down, Suspend(e.reference, x), DeleteBindings(id)];
    }
    hide After, KillCalls, Sunk;
  }

  lemma ActiveKillComesTo(s: State, id: string, status: string, x: Suspension)
    requires id in s.execs && Names(s, s.execs[id].reference, id)
    ensures var reference := s.execs[id].reference;
            After(s, [UpdateExecution(id, status, "", ""), Suspend(reference, x)]
                     + [DeleteActivation(reference), DeleteStable(reference), DeleteBindings(id)])
            == Apply(Apply(Sunk(s, id, status, "", ""), DeleteStable(reference)), Suspend(reference, x))
  {
    hide After, Without, WithoutStable, Updated, ResetExecs, ResetBindings, ResetActivations, JobQueue.Step;
    var reference := s.execs[id].reference;
    var down, suspend := UpdateExecution(id, status, "", ""), Suspend(reference, x);
    var unroute := [DeleteActivation(reference), DeleteStable(reference), DeleteBindings(id)];
    SetsCommute(s.bindings, id, reference);
    AfterAppend(s, [down, suspend], unroute);
    After2(s, down, suspend);
    After3(Apply(Apply(s, down), suspend), unroute[0], unroute[1], unroute[2]);
  }

  lemma OtherKillComesTo(s: State, id: string, status: string, x: Suspension)
    requires id in s.execs && !Names(s, s.execs[id].reference, id)
    ensures var reference := s.execs[id].reference;
            After(s, [UpdateExecution(id, status, "", ""), Suspend(reference, x), DeleteBindings(id)])
            == Apply(Sunk(s, id, status, "", ""), Suspend(reference, x))
  {
    hide After, Without, Updated, Names;
    var down, suspend := UpdateExecution(id, status, "", ""), Suspend(s.execs[id].reference, x);
    After3(s, down, suspend, DeleteBindings(id));
    var t := Apply(s, down);
    assert t == s.(execs := s.execs[id := Updated(s.execs[id], status, "", "")]);
    assert Sunk(s, id, status, "", "") == t.(bindings := Without(s.bindings, id));
    hide Sunk;
  }

  lemma ActivateComesTo(s: State, id: string)
    requires RoutesValid(s) && id in s.execs && s.execs[id].status == "healthy"
    ensures var e := s.execs[id];
            After(s, ActivateCalls(s, id))
            == Routed(s, id, e, s.activations[e.reference := id],
                      StableBindings(id, e.reference, e.upstream, e.subdomain, e.pathPrefix))
               .(suspensions := s.suspensions)
  {
    var e := s.execs[id];
    var stable := StableBindings(id, e.reference, e.upstream, e.subdomain, e.pathPrefix);
    var preview := {PreviewBinding(id, e.reference, e.previewPath, e.upstream)};
    After3(s, Activate(e.reference, id), DeleteStable(e.reference), ReplaceBindings(id, preview + stable));
    ReplaceCommutes(s.bindings, id, e.reference, preview, stable);
    assert s.execs[id := e] == s.execs;
  }

  // ----- Launching -----

  /** The execution as a launch records it once its address is known. */
  function Started(e: Execution, id: string, spec: Spec, status: string): Execution {
    Updated(e, status, spec.upstream, PreviewPathOf(id))
  }

  function ActivatedFirst(s: State, id: string, auto: bool): map<string, string>
    requires id in s.execs
  {
    var reference := s.execs[id].reference;
    if auto && reference !in s.activations then s.activations[reference := id] else s.activations
  }

  function Launched(s: State, id: string, spec: Spec, auto: bool): State
    requires id in s.execs
  {
    var e := Started(s.execs[id], id, spec, "healthy");
    Routed(s, id, e, ActivatedFirst(s, id, auto),
           StableBindings(id, e.reference, e.upstream, spec.subdomain, spec.pathPrefix))
  }

  lemma RoutesComeTo(s: State, t: State, id: string, spec: Spec, auto: bool)
    requires id in s.execs && spec.upstream != ""
    requires t == s.(execs := s.execs[id := Started(s.execs[id], id, spec, "healthy")])
    ensures After(t, RouteCalls(s, id, spec, auto) + [ClearSuspension(s.execs[id].reference)])
         == Launched(s, id, spec, auto)
  {
    hide After, Launched, RouteCalls;
    var reference := s.execs[id].reference;
    if auto && reference !in s.activations {
      FirstRoutesComeTo(s, t, id, spec, auto);
    } else if Names(s, reference, id) {
      OwnRoutesComeTo(s, t, id, spec, auto);
    } else {
      PreviewComesTo(s, t, id, spec, auto);
    }
  }

  lemma FirstRoutesComeTo(s: State, t: State, id: string, spec: Spec, auto: bool)
    requires id in s.execs && spec.upstream != "" && auto && s.execs[id].reference !in s.activations
    requires t == s.(execs := s.execs[id := Started(s.execs[id], id, spec, "healthy")])
    ensures After(t, RouteCalls(s, id, spec, auto) + [ClearSuspension(s.execs[id].reference)])
         == Launched(s, id, spec, auto)
  {
    var ref := s.execs[id].reference;
    var preview := {PreviewBinding(id, ref, PreviewPathOf(id), spec.upstream)};
    var stable := StableBindings(id, ref, spec.upstream, spec.subdomain, spec.pathPrefix);
    var rest := [DeleteStable(ref), ReplaceBindings(id, preview + stable), ClearSuspension(ref)];
    ReplaceCommutes(s.bindings, id, ref, preview, stable);
    hide Without, WithoutStable, StableBindings, After;
    assert RouteCalls(s, id, spec, auto) + [ClearSuspension(ref)] == [Activate(ref, id)] + rest;
    AfterAppend(t, [Activate(ref, id)], rest);
    After1(t, Activate(ref, id));
    After3(Apply(t, Activate(ref, id)), rest[0], rest[1], rest[2]);
  }

  lemma OwnRoutesComeTo(s: State, t: State, id: string, spec: Spec, auto: bool)
    requires id in s.execs && spec.upstream != "" && Names(s, s.execs[id].reference, id)
    requires t == s.(execs := s.execs[id := Started(s.execs[id], id, spec, "healthy")])
    ensures After(t, RouteCalls(s, id, spec, auto) + [ClearSuspension(s.execs[id].reference)])
         == Launched(s, id, spec, auto)
  {
    var ref := s.execs[id].reference;
    var preview := {PreviewBinding(id, ref, PreviewPathOf(id), spec.upstream)};
    var stable := StableBindings(id, ref, spec.upstream, spec.subdomain, spec.pathPrefix);
    var rest := [DeleteStable(ref), ReplaceBindings(id, preview + stable), ClearSuspension(ref)];
    ReplaceCommutes(s.bindings, id, ref, preview, stable);
    hide Without, WithoutStable, StableBindings, After;
    assert RouteCalls(s, id, spec, auto) + [ClearSuspension(ref)] == rest;
    After3(t, rest[0], rest[1], rest[2]);
  }

  lemma PreviewComesTo(s: State, t: State, id: string, spec: Spec, auto: bool)
    requires id in s.execs && spec.upstream != "" && !Names(s, s.execs[id].reference, id)
    requires !auto || s.execs[id].reference in s.activations
    requires t == s.(execs := s.execs[id := Started(s.execs[id], id, spec, "healthy")])
    ensures After(t, RouteCalls(s, id, spec, auto) + [ClearSuspension(s.execs[id].reference)])
         == Launched(s, id, spec, auto)
  {
    var ref := s.execs[id].reference;
    var preview := {PreviewBinding(id, ref, PreviewPathOf(id), spec.upstream)};
    hide Without, WithoutStable, StableBindings, After;
    assert RouteCalls(s, id, spec, auto) + [ClearSuspension(ref)]
        == [ReplaceBindings(id, preview), ClearSuspension(ref)];
    After2(t, ReplaceBindings(id, preview), ClearSuspension(ref));
  }

  lemma HealthyLaunchComesTo(s: State, id: string, reference: string, spec: Spec, auto: bool)
    requires id in s.execs && id != "" && reference != "" && spec.upstream != ""
    ensures After(s, LaunchCalls(s, id, reference, Healthy(spec), auto).0) == Launched(s, id, spec, auto)
  {
    hide After, RouteCalls, Routed, StableBindings;
    var a := UpdateExecution(id, "starting", "", "");
    var b := UpdateExecution(id, "starting", spec.upstream, PreviewPathOf(id));
    var c := UpdateExecution(id, "healthy", spec.upstream, PreviewPathOf(id));
    var rest := RouteCalls(s, id, spec, auto) + [ClearSuspension(s.execs[id].reference)];
    assert LaunchCalls(s, id, reference, Healthy(spec), auto).0 == [a, b, c] + rest;
    AfterAppend(s, [a, b, c], rest);
    After3(s, a, b, c);
    var t := s.(execs := s.execs[id := Started(s.execs[id], id, spec, "healthy")]);
    assert After(s, [a, b, c]) == t;
    RoutesComeTo(s, t, id, spec, auto);
  }

  lemma FailedLaunchComesTo(s: State, id: string, reference: string, outcome: Outcome, auto: bool)
    requires id in s.execs && id != "" && reference != "" && !outcome.Healthy?
    requires Without(s.bindings, id) == s.bindings && !Names(s, s.execs[id].reference, id)
    ensures After(s, LaunchCalls(s, id, reference, outcome, auto).0)
         == if outcome.HealthFails? then Sunk(s, id, "failed", outcome.spec.upstream, PreviewPathOf(id))
            else Sunk(s, id, "failed", "", "")
  {
    hide After, Without;
    var a, failed := UpdateExecution(id, "starting", "", ""), UpdateExecution(id, "failed", "", "");
    match outcome {
      case HealthFails(spec) =>
        var b := UpdateExecution(id, "starting", spec.upstream, PreviewPathOf(id));
        AfterAppend(s, [a], [b, failed, DeleteBindings(id)]);
        After1(s, a);
        After3(Apply(s, a), b, failed, DeleteBindings(id));
      case _ =>
        AfterAppend(s, [a], [failed]);
        After1(s, a);
        After1(Apply(s, a), failed);
    }
  }

  lemma LaunchedKeeps(s: State, id: string, spec: Spec, auto: bool)
    requires RoutesValid(s) && id in s.execs
    ensures RoutesValid(Launched(s, id, spec, auto))
  {
    var e := Started(s.execs[id], id, spec, "healthy");
    RoutedKeeps(s, id, e, ActivatedFirst(s, id, auto), spec.subdomain, spec.pathPrefix);
  }

  lemma ActivatedKeeps(s: State, id: string)
    requires RoutesValid(s) && id in s.execs && s.execs[id].status == "healthy"
    ensures RoutesValid(After(s, ActivateCalls(s, id)))
  {
    var e := s.execs[id];
    ActivateComesTo(s, id);
    RoutedKeeps(s, id, e, s.activations[e.reference := id], e.subdomain, e.pathPrefix);
    var routed := Routed(s, id, e, s.activations[e.reference := id],
                         StableBindings(id, e.reference, e.upstream, e.subdomain, e.pathPrefix));
    var s' := routed.(suspensions := s.suspensions);
    assert s.execs[id := e] == s.execs;
    forall x | x in s'.execs ensures PreviewOf(s', x) == PreviewOf(routed, x) {}
  }
}

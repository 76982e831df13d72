/** Writes of an activation or of a launch that come late: after other handlers' statements. */
module LifecycleRaces {
  import opened Wrappers
  import opened Text
  import opened Executions
  import opened Lifecycle
  import opened LifecycleRuns
  import opened LifecycleCrash
  import opened LifecycleRounds
  import opened LifecycleRoutes
  import JobQueue

  // ----- One binding write -----

  /** The bindings that a write for id leaves in place; drop says that the reference's stable ones go too. */
  function Kept(t: State, id: string, reference: string, drop: bool): set<Binding> {
    if drop then WithoutStable(Without(t.bindings, id), reference) else Without(t.bindings, id)
  }

  /** Everything that is not id's own is in order: the kept bindings, the other executions' previews, every
      activation but one naming id, and every suspension but one of id's reference. */
  ghost predicate OthersSound(t: State, id: string, kept: set<Binding>)
    requires id in t.execs
  {
    && (forall b :: b in kept ==>
          && b.executionId != id && b.executionId in t.execs && b.reference == t.execs[b.executionId].reference
          && b.upstream == t.execs[b.executionId].upstream
          && (b.kind == PreviewPath ==> b == PreviewOf(t, b.executionId))
          && (b.kind != PreviewPath ==> Names(t, b.reference, b.executionId)))
    && (forall x :: x in t.execs && x != id ==> (PreviewOf(t, x) in kept <==> t.execs[x].status == "healthy"))
    && OtherActivations(t, id) && OtherSuspensions(t, id) && AllLocal(t)
  }

  ghost predicate OtherActivations(t: State, id: string)
    requires id in t.execs
  {
    forall ref :: ref in t.activations && !(ref == t.execs[id].reference && t.activations[ref] == id) ==>
      t.activations[ref] in t.execs && t.execs[t.activations[ref]].status == "healthy"
      && t.execs[t.activations[ref]].reference == ref
  }

  ghost predicate OtherSuspensions(t: State, id: string)
    requires id in t.execs
  {
    forall ref :: ref in t.suspensions && ref != t.execs[id].reference ==> SuspensionSound(t, ref)
  }

  ghost predicate SuspensionSound(t: State, ref: string)
    requires ref in t.suspensions
  {
    && t.suspensions[ref].executionId in t.execs && t.execs[t.suspensions[ref].executionId].status != "healthy"
    && t.execs[t.suspensions[ref].executionId].reference == ref
  }

  /** id's preview and stable bindings, as a handler writes them. */
  function Written(t: State, id: string, kept: set<Binding>, stable: set<Binding>, previewPath: string,
                   upstream: string): State
    requires id in t.execs
  {
    t.(bindings := kept + stable + {PreviewBinding(id, t.execs[id].reference, previewPath, upstream)})
  }

  /** The execution is healthy, at this address and preview path. */
  predicate ServesAt(t: State, id: string, previewPath: string, upstream: string) {
    id in t.execs && t.execs[id].status == "healthy" && t.execs[id].upstream == upstream
    && t.execs[id].previewPath == previewPath
  }

  lemma WrittenKeeps(t: State, id: string, kept: set<Binding>, stable: set<Binding>, previewPath: string,
                     upstream: string)
    requires id in t.execs && OthersSound(t, id, kept) && ServesAt(t, id, previewPath, upstream)
    requires forall b :: b in stable ==>
               && b.executionId == id && b.reference == t.execs[id].reference
               && b.upstream == upstream && b.kind != PreviewPath
    requires stable == {} || Names(t, t.execs[id].reference, id)
    requires t.execs[id].reference in t.suspensions ==> SuspensionSound(t, t.execs[id].reference)
    ensures RoutesValid(Written(t, id, kept, stable, previewPath, upstream))
  {
    var u := Written(t, id, kept, stable, previewPath, upstream);
    forall x | x in u.execs
      ensures PreviewOf(u, x) == PreviewOf(t, x)
      ensures PreviewOf(u, x) in u.bindings <==> u.execs[x].status == "healthy"
    {}
    assert PreviewsExact(u);
    assert ActivationsSound(u) && SuspensionsSound(u);
  }

  lemma WrittenBreaks(t: State, id: string, kept: set<Binding>, stable: set<Binding>, previewPath: string,
                      upstream: string)
    requires id in t.execs && RoutesValid(Written(t, id, kept, stable, previewPath, upstream))
    requires forall b :: b in stable ==>
               b.executionId == id && b.reference == t.execs[id].reference && b.kind != PreviewPath
    ensures ServesAt(t, id, previewPath, upstream) && (stable == {} || Names(t, t.execs[id].reference, id))
  {
    var u := Written(t, id, kept, stable, previewPath, upstream);
    var preview := PreviewBinding(id, t.execs[id].reference, previewPath, upstream);
    assert preview in u.bindings;
    assert preview == PreviewOf(u, id);
    if stable != {} {
      var b :| b in stable;
      assert b in u.bindings;
    }
  }

  lemma StableShape(id: string, reference: string, upstream: string, subdomain: string, pathPrefix: string)
    ensures forall b :: b in StableBindings(id, reference, upstream, subdomain, pathPrefix) ==>
              b.executionId == id && b.reference == reference && b.upstream == upstream && b.kind != PreviewPath
    ensures StableBindings(id, reference, upstream, subdomain, pathPrefix) == {}
        <==> subdomain == "" && pathPrefix == ""
  {
    var stable := StableBindings(id, reference, upstream, subdomain, pathPrefix);
    if subdomain != "" { assert Binding(id, reference, StableSubdomain, subdomain, "", upstream) in stable; }
    if pathPrefix != "" { assert Binding(id, reference, StablePath, "", pathPrefix, upstream) in stable; }
  }

  /** A write of id's bindings, when all else is in order, keeps the routing invariant exactly when the execution
      serves at the address written, and holds the activation if stable routes are written. */
  lemma WrittenIff(t: State, id: string, kept: set<Binding>, previewPath: string, upstream: string,
                   subdomain: string, pathPrefix: string)
    requires id in t.execs && OthersSound(t, id, kept)
    requires t.execs[id].reference in t.suspensions ==> SuspensionSound(t, t.execs[id].reference)
    ensures var reference := t.execs[id].reference;
            var stable := StableBindings(id, reference, upstream, subdomain, pathPrefix);
            (RoutesValid(Written(t, id, kept, stable, previewPath, upstream))
             <==> ServesAt(t, id, previewPath, upstream)
                  && (Names(t, reference, id) || (subdomain == "" && pathPrefix == "")))
  {
    var reference := t.execs[id].reference;
    var stable := StableBindings(id, reference, upstream, subdomain, pathPrefix);
    StableShape(id, reference, upstream, subdomain, pathPrefix);
    hide RoutesValid, StableBindings, OthersSound, Written, Names, ServesAt;
    if RoutesValid(Written(t, id, kept, stable, previewPath, upstream)) {
      WrittenBreaks(t, id, kept, stable, previewPath, upstream);
    }
    if ServesAt(t, id, previewPath, upstream)
       && (Names(t, reference, id) || (subdomain == "" && pathPrefix == "")) {
      WrittenKeeps(t, id, kept, stable, previewPath, upstream);
    }
  }

  // ----- Late writes of an activation -----

  /** The execution is as the health check saw it: still healthy, at the same address and preview path. */
  predicate Unchanged(s: State, t: State, id: string)
    requires id in s.execs && id in t.execs
  {
    ServesAt(t, id, s.execs[id].previewPath, s.execs[id].upstream)
  }

  function Activated(t: State, id: string, first: bool): State
    requires id in t.execs
  {
    if first then t.(activations := t.activations[t.execs[id].reference := id]) else t
  }

  lemma ValidOthersSound(t: State, id: string)
    requires RoutesValid(t) && id in t.execs
    ensures OthersSound(t, id, Without(t.bindings, id))
    ensures t.execs[id].reference in t.suspensions ==> SuspensionSound(t, t.execs[id].reference)
  {}

  /** Dropping the reference's stable bindings, and then activating id, leaves the others sound. */
  lemma OthersStaySound(t: State, id: string, first: bool, drop: bool)
    requires id in t.execs && OthersSound(t, id, Without(t.bindings, id)) && (first ==> drop)
    ensures OthersSound(Activated(t, id, first), id, Kept(t, id, t.execs[id].reference, drop))
  {
    var u, kept := Activated(t, id, first), Kept(t, id, t.execs[id].reference, drop);
    forall x | x in u.execs && x != id
      ensures PreviewOf(u, x) in kept <==> u.execs[x].status == "healthy"
    {
      assert PreviewOf(u, x) == PreviewOf(t, x);
    }
  }

  /** The statements that bring id's routes up: activation, removal of the stable bindings, replacement. */
  function BindingCalls(id: string, reference: string, first: bool, drop: bool, wanted: set<Binding>): seq<Call> {
    (if first then [Activate(reference, id)] else []) + (if drop then [DeleteStable(reference)] else [])
    + [ReplaceBindings(id, wanted)]
  }

  lemma BindingCallsComeTo(t: State, id: string, first: bool, drop: bool, stable: set<Binding>, previewPath: string,
                           upstream: string)
    requires id in t.execs && (first ==> drop)
    ensures var reference := t.execs[id].reference;
            var wanted := {PreviewBinding(id, reference, previewPath, upstream)} + stable;
            After(t, BindingCalls(id, reference, first, drop, wanted))
            == Written(Activated(t, id, first), id, Kept(t, id, reference, drop), stable, previewPath, upstream)
  {
    hide After, Without, WithoutStable;
    var reference := t.execs[id].reference;
    var wanted := {PreviewBinding(id, reference, previewPath, upstream)} + stable;
    var calls := BindingCalls(id, reference, first, drop, wanted);
    SetsCommute(t.bindings, id, reference);
    UnionCommutes(Kept(t, id, reference, drop), stable, {PreviewBinding(id, reference, previewPath, upstream)});
    if first {
      assert calls == [Activate(reference, id), DeleteStable(reference), ReplaceBindings(id, wanted)];
      After3(t, calls[0], calls[1], calls[2]);
    } else if drop {
      assert calls == [DeleteStable(reference), ReplaceBindings(id, wanted)];
      After2(t, calls[0], calls[1]);
    } else {
      assert calls == [ReplaceBindings(id, wanted)];
      After1(t, calls[0]);
    }
  }

  lemma UnionCommutes(kept: set<Binding>, stable: set<Binding>, preview: set<Binding>)
    ensures kept + (preview + stable) == kept + stable + preview
  {}

  /** What the writes of an activation from the k-th on come to in t, when its health check read the execution
      in s. */
  lemma LateActivationComesTo(s: State, t: State, id: string, k: nat)
    requires id in s.execs && s.execs[id].status == "healthy" && k <= 2
    requires id in t.execs && t.execs[id].reference == s.execs[id].reference
    ensures |ActivateCalls(s, id)| == 3
    ensures var e := s.execs[id];
            After(t, ActivateCalls(s, id)[k..])
            == Written(Activated(t, id, k == 0), id, Kept(t, id, e.reference, k <= 1),
                       StableBindings(id, e.reference, e.upstream, e.subdomain, e.pathPrefix), e.previewPath,
                       e.upstream)
  {
    hide After, StableBindings, Kept, Written, Activated;
    var e := s.execs[id];
    var stable := StableBindings(id, e.reference, e.upstream, e.subdomain, e.pathPrefix);
    BindingCallsComeTo(t, id, k == 0, k <= 1, stable, e.previewPath, e.upstream);
    assert ActivateCalls(s, id)[k..]
        == BindingCalls(id, e.reference, k == 0, k <= 1,
                        {PreviewBinding(id, e.reference, e.previewPath, e.upstream)} + stable);
  }

  /** The writes of an activation from the k-th on, coming after any other handlers, keep the routing invariant
      exactly when the execution is still as the health check saw it and, if the activation itself was written
      before, still holds it or declares no stable route. */
  lemma LateWritesIff(s: State, t: State, id: string, k: nat)
    requires RoutesValid(t) && id in s.execs && s.execs[id].status == "healthy" && k <= 2
    requires id in t.execs && t.execs[id].reference == s.execs[id].reference
    ensures |ActivateCalls(s, id)| == 3
    ensures RoutesValid(After(t, ActivateCalls(s, id)[k..]))
        <==> Unchanged(s, t, id)
             && (k == 0 || Names(t, s.execs[id].reference, id)
                 || (s.execs[id].subdomain == "" && s.execs[id].pathPrefix == ""))
  {
    hide RoutesValid, After, StableBindings, OthersSound, Kept, ActivateCalls;
    var e := s.execs[id];
    LateActivationComesTo(s, t, id, k);
    ValidOthersSound(t, id);
    OthersStaySound(t, id, k == 0, k <= 1);
    WrittenIff(Activated(t, id, k == 0), id, Kept(t, id, e.reference, k <= 1), e.previewPath, e.upstream,
               e.subdomain, e.pathPrefix);
  }

  /** The writes of an activation that come as one block after other handlers keep the lifecycle invariant exactly
      when the execution is still as the health check saw it. */
  lemma LateActivationIff(s: State, t: State, id: string)
    requires Inv(t) && id in s.execs && s.execs[id].status == "healthy" && id in t.execs
    requires t.execs[id].reference == s.execs[id].reference
    ensures Inv(After(t, ActivateCalls(s, id))) <==> Unchanged(s, t, id)
  {
    hide RoutesValid, JobsValid, After, Unchanged, StableBindings, Kept;
    LateWritesIff(s, t, id, 0);
    assert ActivateCalls(s, id)[0..] == ActivateCalls(s, id);
    LateActivationComesTo(s, t, id, 0);
    hide ActivateCalls;
    SameJobs(t, After(t, ActivateCalls(s, id)));
  }

  /** Two healthy executions of one reference are activated at once, the one with a route first: when the other's
      activation comes between the first's writes, both executions are unchanged and yet the routes of the first
      are left without its activation. */
  lemma ActivationsRace(s: State, a: string, b: string)
    requires Inv(s) && a != b && a in s.execs && b in s.execs && s.execs[a].reference == s.execs[b].reference
    requires s.execs[a].status == "healthy" && s.execs[b].status == "healthy"
    requires s.execs[a].subdomain != "" || s.execs[a].pathPrefix != ""
    ensures |ActivateCalls(s, a)| == 3
    ensures var t := After(s, [ActivateCalls(s, a)[0]] + ActivateCalls(s, b));
            && Inv(t) && t.execs == s.execs && Unchanged(s, t, a) && Unchanged(s, t, b)
            && !RoutesValid(After(t, ActivateCalls(s, a)[1..]))
  {
    Overwritten(s, a, b);
    ActivateKeeps(s, b);
    LateActivationComesTo(s, s, b, 0);
    assert ActivateCalls(s, b)[0..] == ActivateCalls(s, b);
    hide RoutesValid, JobsValid, After, StableBindings, Kept, ActivateCalls;
    var t := After(s, ActivateCalls(s, b));
    LateWritesIff(s, t, a, 1);
  }

  function BothLaunched(): seq<Event> {
    LaunchEvents(FIRST, "w", AT, true) + LaunchEvents(SECOND, "w", AT, true)
  }

  /** Two executions of one reference, both healthy and both with a stable route, are reachable. */
  lemma BothLaunch()
    ensures var s := LifecycleRuns.Run(EMPTY_STATE, BothLaunched());
            && AllowedRun(EMPTY_STATE, BothLaunched()) && Inv(s) && "a" in s.execs && "b" in s.execs
            && s.execs["a"].reference == s.execs["b"].reference && s.execs["a"].subdomain != ""
            && s.execs["a"].status == "healthy" && s.execs["b"].status == "healthy"
  {
    LifecycleRounds.NothingYet();
    TrimSpaceFixpoint("r");
    hide MayAsk, AllowedRun, LaunchEvents, LifecycleRuns.Run, Served, TrimSpace, StableBindings, NonePending, StableOf;
    FirstServes(EMPTY_STATE, FIRST, "w", AT, SECOND);
    LaunchRound(EMPTY_STATE, FIRST, "w", AT, true);
    var s1 := LifecycleRuns.Run(EMPTY_STATE, LaunchEvents(FIRST, "w", AT, true));
    LaunchRound(s1, SECOND, "w", AT, true);
    RunAppend(EMPTY_STATE, LaunchEvents(FIRST, "w", AT, true), LaunchEvents(SECOND, "w", AT, true));
  }

  /** So the race of two activations is reachable. */
  lemma ActivationsRaceHappens()
    ensures var s := LifecycleRuns.Run(EMPTY_STATE, BothLaunched());
            && AllowedRun(EMPTY_STATE, BothLaunched()) && |ActivateCalls(s, "a")| == 3
            && var t := After(s, [ActivateCalls(s, "a")[0]] + ActivateCalls(s, "b"));
               Inv(t) && !RoutesValid(After(t, ActivateCalls(s, "a")[1..]))
  {
    BothLaunch();
    hide Inv, RoutesValid, ActivateCalls, After, AllowedRun, BothLaunched, LifecycleRuns.Run, Unchanged;
    ActivationsRace(LifecycleRuns.Run(EMPTY_STATE, BothLaunched()), "a", "b");
  }

  /** An activation written just before another one of the same reference leaves no trace. */
  lemma Overwritten(s: State, a: string, b: string)
    requires a in s.execs && b in s.execs && s.execs[a].reference == s.execs[b].reference
    requires s.execs[a].status == "healthy" && s.execs[b].status == "healthy"
    ensures |ActivateCalls(s, a)| == 3
    ensures After(s, [ActivateCalls(s, a)[0]] + ActivateCalls(s, b)) == After(s, ActivateCalls(s, b))
  {
    hide After, StableBindings;
    var reference := s.execs[a].reference;
    var first := Activate(reference, a);
    var s1 := Apply(s, first);
    AfterAppend(s, [first], ActivateCalls(s, b));
    After1(s, first);
    LateActivationComesTo(s, s, b, 0);
    LateActivationComesTo(s, s1, b, 0);
    assert ActivateCalls(s, b)[0..] == ActivateCalls(s, b);
    assert s.activations[reference := a][reference := b] == s.activations[reference := b];
  }

  // ----- Late writes of a launch -----

  /** The launch that read s activates its execution first of all. */
  predicate LaunchActivates(s: State, id: string, auto: bool)
    requires id in s.execs
  {
    auto && s.execs[id].reference !in s.activations
  }

  /** The launch that read s writes stable routes, not only the preview. */
  predicate LaunchRoutes(s: State, id: string, auto: bool)
    requires id in s.execs
  {
    LaunchActivates(s, id, auto) || Names(s, s.execs[id].reference, id)
  }

  /** What a healthy launch writes after it has recorded the execution as healthy. */
  function RouteWrites(s: State, id: string, spec: Spec, auto: bool): seq<Call>
    requires id in s.execs
  {
    RouteCalls(s, id, spec, auto) + [ClearSuspension(s.execs[id].reference)]
  }

  function Cleared(t: State, reference: string): State {
    t.(suspensions := t.suspensions - {reference})
  }

  /** The stable bindings a launch that read s writes. */
  function LaunchStable(s: State, id: string, spec: Spec, auto: bool): set<Binding>
    requires id in s.execs
  {
    if LaunchRoutes(s, id, auto)
    then StableBindings(id, s.execs[id].reference, spec.upstream, spec.subdomain, spec.pathPrefix) else {}
  }

  /** How many of the route writes come before the bindings are replaced. */
  function BeforeReplace(s: State, id: string, auto: bool): nat
    requires id in s.execs
  {
    if LaunchActivates(s, id, auto) then 2 else if LaunchRoutes(s, id, auto) then 1 else 0
  }

  /** What the route writes of a launch from the k-th on come to in t. */
  lemma LateLaunchComesTo(s: State, t: State, id: string, spec: Spec, auto: bool, k: nat)
    requires id in s.execs && id in t.execs && t.execs[id].reference == s.execs[id].reference
    requires k <= BeforeReplace(s, id, auto)
    ensures |RouteWrites(s, id, spec, auto)| == BeforeReplace(s, id, auto) + 2
    ensures var reference := s.execs[id].reference;
            var first := LaunchActivates(s, id, auto) && k == 0;
            After(t, RouteWrites(s, id, spec, auto)[k..])
            == Cleared(Written(Activated(t, id, first), id, Kept(t, id, reference, k < BeforeReplace(s, id, auto)),
                               LaunchStable(s, id, spec, auto), PreviewPathOf(id), spec.upstream), reference)
  {
    hide After, LaunchStable, Kept, Written, Activated, RouteWrites, BindingCalls;
    RouteWritesAre(s, id, spec, auto, k);
    var reference := s.execs[id].reference;
    var first := LaunchActivates(s, id, auto) && k == 0;
    var drop := k < BeforeReplace(s, id, auto);
    var stable := LaunchStable(s, id, spec, auto);
    var wanted := {PreviewBinding(id, reference, PreviewPathOf(id), spec.upstream)} + stable;
    BindingCallsComeTo(t, id, first, drop, stable, PreviewPathOf(id), spec.upstream);
    AfterSnoc(t, BindingCalls(id, reference, first, drop, wanted), ClearSuspension(reference));
  }

  lemma RouteWritesAre(s: State, id: string, spec: Spec, auto: bool, k: nat)
    requires id in s.execs && k <= BeforeReplace(s, id, auto)
    ensures |RouteWrites(s, id, spec, auto)| == BeforeReplace(s, id, auto) + 2
    ensures var reference := s.execs[id].reference;
            var wanted := {PreviewBinding(id, reference, PreviewPathOf(id), spec.upstream)}
                          + LaunchStable(s, id, spec, auto);
            RouteWrites(s, id, spec, auto)[k..]
            == BindingCalls(id, reference, LaunchActivates(s, id, auto) && k == 0, k < BeforeReplace(s, id, auto),
                            wanted)
               + [ClearSuspension(reference)]
  {
    hide StableBindings;
    var preview := {PreviewBinding(id, s.execs[id].reference, PreviewPathOf(id), spec.upstream)};
    assert preview + {} == preview;
  }

  /** The route writes of a healthy launch from the k-th on, coming after any other handlers, keep the routing
      invariant exactly when the execution still serves at the launch's address and, if stable routes are written
      and the activation is not, holds the activation or declares none.  Before them all but the execution's own
      routes and its reference's suspension is taken to be in order, as the launch leaves it. */
  lemma LateLaunchIff(s: State, t: State, id: string, spec: Spec, auto: bool, k: nat)
    requires id in s.execs && id in t.execs && t.execs[id].reference == s.execs[id].reference
    requires OthersSound(t, id, Without(t.bindings, id)) && k <= BeforeReplace(s, id, auto)
    ensures |RouteWrites(s, id, spec, auto)| == BeforeReplace(s, id, auto) + 2
    ensures RoutesValid(After(t, RouteWrites(s, id, spec, auto)[k..]))
        <==> ServesAt(t, id, PreviewPathOf(id), spec.upstream)
             && (!LaunchRoutes(s, id, auto) || (LaunchActivates(s, id, auto) && k == 0)
                 || Names(t, s.execs[id].reference, id) || (spec.subdomain == "" && spec.pathPrefix == ""))
  {
    var reference := s.execs[id].reference;
    var first := LaunchActivates(s, id, auto) && k == 0;
    var drop := k < BeforeReplace(s, id, auto);
    LateLaunchComesTo(s, t, id, spec, auto, k);
    OthersStaySound(t, id, first, drop);
    var kept := Kept(t, id, reference, drop);
    NoStable(id, reference, spec.upstream);
    hide RoutesValid, After, StableBindings, OthersSound, Kept, RouteWrites, Without, PreviewPathOf, BeforeReplace,
         Written, ServesAt;
    if LaunchRoutes(s, id, auto) {
      RoutedIff(t, id, first, kept, PreviewPathOf(id), spec.upstream, spec.subdomain, spec.pathPrefix);
    } else {
      RoutedIff(t, id, first, kept, PreviewPathOf(id), spec.upstream, "", "");
    }
  }

  /** Bindings written after an activation, with the reference's suspension cleared. */
  lemma RoutedIff(t: State, id: string, first: bool, kept: set<Binding>, previewPath: string, upstream: string,
                  subdomain: string, pathPrefix: string)
    requires id in t.execs && OthersSound(Activated(t, id, first), id, kept)
    ensures var reference := t.execs[id].reference;
            var stable := StableBindings(id, reference, upstream, subdomain, pathPrefix);
            (RoutesValid(Cleared(Written(Activated(t, id, first), id, kept, stable, previewPath, upstream), reference))
             <==> ServesAt(t, id, previewPath, upstream)
                  && (first || Names(t, reference, id) || (subdomain == "" && pathPrefix == "")))
  {
    hide RoutesValid, StableBindings, OthersSound;
    var u := Cleared(Activated(t, id, first), t.execs[id].reference);
    ClearedSound(Activated(t, id, first), id, kept);
    WrittenIff(u, id, kept, previewPath, upstream, subdomain, pathPrefix);
  }

  lemma NoStable(id: string, reference: string, upstream: string)
    ensures StableBindings(id, reference, upstream, "", "") == {}
  {}

  lemma ClearedSound(t: State, id: string, kept: set<Binding>)
    requires id in t.execs && OthersSound(t, id, kept)
    ensures OthersSound(Cleared(t, t.execs[id].reference), id, kept)
  {
    var u := Cleared(t, t.execs[id].reference);
    forall x | x in u.execs
      ensures PreviewOf(u, x) == PreviewOf(t, x)
    {}
  }

  /** Recording the execution as healthy leaves everything else in order. */
  lemma LaunchLeavesOthers(s: State, id: string, spec: Spec)
    requires RoutesValid(s) && id in s.execs && s.execs[id].status != "healthy"
    ensures var t := s.(execs := s.execs[id := Started(s.execs[id], id, spec, "healthy")]);
            OthersSound(t, id, Without(t.bindings, id))
  {
    var t := s.(execs := s.execs[id := Started(s.execs[id], id, spec, "healthy")]);
    UnhealthyIsUnrouted(s, id);
    forall x | x in t.execs && x != id
      ensures PreviewOf(t, x) == PreviewOf(s, x)
    {}
  }

  lemma LaunchSplits(s: State, id: string, from: string, spec: Spec, auto: bool)
    requires id in s.execs && id != "" && from != "" && spec.upstream != ""
    ensures var calls := LaunchCalls(s, id, from, Healthy(spec), auto).0;
            && |calls| >= 3 && calls[3..] == RouteWrites(s, id, spec, auto)
            && After(s, calls[..3]) == s.(execs := s.execs[id := Started(s.execs[id], id, spec, "healthy")])
  {
    hide After, RouteCalls;
    var a := UpdateExecution(id, "starting", "", "");
    var b := UpdateExecution(id, "starting", spec.upstream, PreviewPathOf(id));
    var c := UpdateExecution(id, "healthy", spec.upstream, PreviewPathOf(id));
    var calls := LaunchCalls(s, id, from, Healthy(spec), auto).0;
    assert calls == [a, b, c] + RouteWrites(s, id, spec, auto);
    assert calls[..3] == [a, b, c];
    After3(s, a, b, c);
  }

  /** A process that exits as soon as it was found healthy, before the launch has written its routes, is left
      routed although it is terminated. */
  lemma ExitRacesLaunch(s: State, id: string, from: string, spec: Spec, auto: bool)
    requires id in s.execs && id != "" && from != "" && spec.upstream != ""
    ensures var calls := LaunchCalls(s, id, from, Healthy(spec), auto).0;
            && |calls| >= 3
            && var u := After(s, calls[..3]);
               var raced := After(After(u, ExitCalls(u, id)), calls[3..]);
               && !RoutesValid(raced) && id in raced.execs && raced.execs[id].status == "terminated"
               && exists b :: b in raced.bindings && b.executionId == id
  {
    LaunchSplits(s, id, from, spec, auto);
    var calls := LaunchCalls(s, id, from, Healthy(spec), auto).0;
    var u := After(s, calls[..3]);
    ExitLeaves(u, id);
    hide After, RouteWrites, LaunchCalls, ExitCalls, Started, LaunchStable, Kept;
    var t := After(u, ExitCalls(u, id));
    LateLaunchComesTo(s, t, id, spec, auto, 0);
    RoutedDead(Activated(t, id, LaunchActivates(s, id, auto)), id,
               Kept(t, id, s.execs[id].reference, 0 < BeforeReplace(s, id, auto)),
               LaunchStable(s, id, spec, auto), PreviewPathOf(id), spec.upstream);
  }

  /** A binding of an execution that is not healthy breaks the routing invariant. */
  lemma RoutedDead(t: State, id: string, kept: set<Binding>, stable: set<Binding>, previewPath: string,
                   upstream: string)
    requires id in t.execs && t.execs[id].status != "healthy"
    ensures var raced := Cleared(Written(t, id, kept, stable, previewPath, upstream), t.execs[id].reference);
            !RoutesValid(raced) && exists b :: b in raced.bindings && b.executionId == id
  {
    var raced := Cleared(Written(t, id, kept, stable, previewPath, upstream), t.execs[id].reference);
    var preview := PreviewBinding(id, t.execs[id].reference, previewPath, upstream);
    assert preview in raced.bindings && preview.executionId == id;
    if RoutesValid(raced) { PreviewedHealthy(raced, preview); }
  }

  lemma PreviewedHealthy(t: State, b: Binding)
    requires RoutesValid(t) && b in t.bindings && b.kind == PreviewPath
    ensures b.executionId in t.execs && t.execs[b.executionId].status == "healthy"
  {
    assert b == PreviewOf(t, b.executionId);
  }

  /** Whenever an execution's process exits between the health check of an activation and its writes, a
      terminated execution is left activated and routed, which breaks the invariant.  A restart repairs it. */
  lemma ActivateRacesExit(s: State, id: string)
    requires Inv(s) && id in s.execs && s.execs[id].status == "healthy"
    ensures var raced := After(After(s, ExitCalls(s, id)), ActivateCalls(s, id));
            && !Inv(raced)
            && id in raced.execs && raced.execs[id].status == "terminated"
            && Names(raced, raced.execs[id].reference, id)
            && (exists b :: b in raced.bindings && b.executionId == id)
            && Reconciled(raced, After(raced, RESTART_CALLS))
  {
    hide After, Reconciled, Inv, ExitCalls, ActivateCalls, RouteCallSound, CallSound, AllSound;
    var exited := After(s, ExitCalls(s, id));
    ExitLeaves(s, id);
    ExitKeeps(s, id);
    LateActivationIff(s, exited, id);
    LateActivationComesTo(s, exited, id, 0);
    assert ActivateCalls(s, id)[0..] == ActivateCalls(s, id);
    assert PreviewBinding(id, s.execs[id].reference, s.execs[id].previewPath, s.execs[id].upstream)
        in After(exited, ActivateCalls(s, id)).bindings;
    RacedSound(s, id);
    AfterAppend(s, ExitCalls(s, id), ActivateCalls(s, id));
    RestartAfterAnyInterleaving(s, ExitCalls(s, id) + ActivateCalls(s, id));
  }

  lemma ExitLeaves(s: State, id: string)
    requires id in s.execs && s.execs[id].status == "healthy"
    ensures var exited := After(s, ExitCalls(s, id));
            && id in exited.execs && exited.execs[id].status == "terminated"
            && exited.execs[id].reference == s.execs[id].reference
  {
    hide After;
    ExitComesTo(s, id);
  }

  lemma RacedSound(s: State, id: string)
    requires id in s.execs
    ensures AllSound(s, ExitCalls(s, id) + ActivateCalls(s, id))
  {
    hide After, RouteCallSound, CallSound, AllSound, ExitCalls, ActivateCalls;
    HandlerSounds(s, id, "");
    RoutesAllSound(s, s, ExitCalls(s, id));
    RouteCallsSound(s, s, ExitCalls(s, id), |ExitCalls(s, id)|);
    assert ExitCalls(s, id)[..|ExitCalls(s, id)|] == ExitCalls(s, id);
    RoutesAllSound(s, After(s, ExitCalls(s, id)), ActivateCalls(s, id));
    AllSoundAppend(s, ExitCalls(s, id), ActivateCalls(s, id));
  }
}

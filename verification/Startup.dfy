/** Startup: with no failing call of the Kode controller, and only the environment and the EntryPoint
    controller acting, a new Kode goes through Pending, Configuring and Provisioning, and is Active after
    reconcile 4 + k, where k is the number of polls that found it not ready. */
module Startup {
  import opened KodeTypes
  import opened Cluster
  import opened Handlers
  import opened Agreement
  import D = Desired
  import R = Resources
  import T = Templates
  import V = Convergence

  /** What the user must have given for the Kode to start. */
  predicate Startable(g: Setting, spec: KodeSpec) {
    && D.KodeValid(spec)
    && D.ExistingSecret(spec).None?
    && T.Visible(g.store, spec.templateRef).Ok? && T.Visible(g.store, spec.templateRef).value.spec.kind != OtherType
    && (D.ManagesClaim(spec) ==> !D.StorageIsEmpty(spec.storage) && spec.storage.value.resources.Some?)
  }

  /** Nothing is being deleted, and the EntryPoint controller has nothing to do. */
  predicate Calm(w: World) { w.children.terminating == {} && Idle(w) }

  /** From `w` to `v` nothing of the Kode but its status has changed, and children have only drifted. */
  ghost predicate Goes(w: World, v: World) {
    && w.kode.Some? && v.kode.Some? && Idle(w)
    && v.kode.value == w.kode.value.(status := v.kode.value.status)
    && Drift(w.(kode := None), v.(kode := None))
  }

  lemma GoesOn(u: World, v: World, w: World)
    requires Goes(u, v) && Goes(v, w)
    ensures Goes(u, w)
  {
    DriftsOn(u.(kode := None), v.(kode := None), w.(kode := None));
    hide Drift;
  }

  lemma EnterGoes(g: Setting, y: Sys)
    requires Friendly(g) && Calm(y.w) && y.w.kode.Some?
    ensures Up(g, y) && Goes(y.w, Enter(g, y).w) && Enter(g, y).w.kode == y.w.kode
  {
    EnterDrifts(g, y);
    hide Enter, Friendly, Up;
  }

  lemma GoesKeeps(g: Setting, w: World, v: World, spec: KodeSpec, cfg: D.Config)
    requires Goes(w, v)
    ensures v.children.terminating == {}
    ensures NoneYet(g, w.children, spec) ==> NoneYet(g, v.children, spec)
    ensures Made(g, w.children, spec, cfg) ==> Made(g, v.children, spec, cfg)
  {
    DriftKeepsParts(g, w.(kode := None), v.(kode := None), spec, cfg);
    hide NotYet, PartMade;
  }

  lemma SaveGoes(g: Setting, y: Sys, s: Status)
    requires Friendly(g) && Calm(y.w) && y.w.kode.Some?
    ensures var u := UpdateStatus(g, y, s);
            u.err.None? && Goes(y.w, u.y.w) && u.y.w.kode == Some(y.w.kode.value.(status := s))
  {
    EnterGoes(g, y);
    hide Enter, Friendly, Drift, Up;
    assert Up(g, y);
  }

  lemma FetchGoes(g: Setting, y: Sys, k: Kode)
    requires Friendly(g) && Calm(y.w) && y.w.kode.Some? && T.Visible(g.store, k.spec.templateRef).Ok?
    ensures var f := FetchTemplates(g, y, k);
            && f.out == T.Visible(g.store, k.spec.templateRef)
            && Goes(y.w, f.y.w) && (k.status.phase != Active ==> Idle(f.y.w))
            && f.k == k.(status := k.status.(runtime := f.k.status.runtime))
  {
    var t := T.Visible(g.store, k.spec.templateRef);
    EnterGoes(g, y);
    var z := Enter(g, y);
    GoesTerminating(y.w, z.w);
    SaveGoes(g, z, k.status.(runtime := Some(t.value.spec.runtimeClass)));
    hide Enter, Friendly, Goes, UpdateStatus, T.Visible, T.IsContainerKind, Up;
    GoesOn2(y.w, z.w, UpdateStatus(g, z, k.status.(runtime := Some(t.value.spec.runtimeClass))).y.w);
  }

  lemma GoesTerminating(w: World, v: World)
    requires Goes(w, v)
    ensures v.children.terminating == {} && v.kode.Some? && v.ep.None?
  {
  }

  lemma GoesOn2(u: World, v: World, w: World)
    ensures Goes(u, v) && Goes(v, w) ==> Goes(u, w)
  {
    if Goes(u, v) && Goes(v, w) { GoesOn(u, v, w); }
  }

  lemma {:induction false} ChecksGo(g: Setting, y: Sys, spec: KodeSpec, cfg: D.Config, checks: seq<R.Check>)
    requires Friendly(g) && Calm(y.w) && y.w.kode.Some?
    ensures var r := R.RunChecks(g, y, spec, cfg, checks);
            (r.y == y || Goes(y.w, r.y.w)) && r.y.w.kode == y.w.kode && Calm(r.y.w) && r.out.Ok?
    decreases |checks|
  {
    if checks != [] {
      EnterGoes(g, y);
      GoesTerminating(y.w, Enter(g, y).w);
      hide Enter, Friendly, Goes, Up, D.SecretHasFields, D.ServiceHasPort, D.PodsReady, D.SecretName, D.ClaimName;
      var r := R.RunCheck(g, y, spec, cfg, checks[0]);
      assert r.y == y || r.y == Enter(g, y);
      assert r.out.Ok?;
      hide R.RunCheck;
      if r.out.value {
        ChecksGo(g, r.y, spec, cfg, checks[1..]);
        GoesOn2(y.w, r.y.w, R.RunChecks(g, r.y, spec, cfg, checks[1..]).y.w);
      }
    }
  }

  // ---- the reconcile, up to the handler ----

  /** The Kode at rest in a phase. */
  predicate At(w: World, spec: KodeSpec, p: Phase) {
    && w.kode.Some?
    && var k := w.kode.value;
    && k.spec == spec && k.finalizer && !k.deleting && k.status.phase == p && k.generation == k.status.observedGeneration
    && k.status.retryCount == 0
    && w.children.terminating == {} && w.ep.None?
  }

  lemma GoesAt(w: World, v: World, spec: KodeSpec, p: Phase)
    requires At(w, spec, p) && Goes(w, v) && v.kode == w.kode
    ensures At(v, spec, p)
  {
  }

  /** Past the gates a reconcile is its handler and the state machine's write. */
  lemma ReconcileAt(g: Setting, y: Sys, spec: KodeSpec, p: Phase)
    requires Friendly(g) && At(y.w, spec, p) && p != Uninitialised && p != Active
    ensures var z := Enter(g, y);
            && Goes(y.w, z.w) && z.w.kode == y.w.kode && At(z.w, spec, p)
            && Reconcile(g, y).y == Advance(g, p, Handle(g, z, y.w.kode.value)).y
  {
    EnterGoes(g, y);
    GoesAt(y.w, Enter(g, y).w, spec, p);
    hide Enter, Friendly, Goes, Handle, Advance;
  }

  /** The end of a step: the handler has returned `next` with nothing but the status of the copy changed. */
  ghost predicate Left(w: World, o: Out, k: Kode, next: Phase) {
    && o.err.None? && o.phase == next
    && Goes(w, o.y.w)
    && o.k == k.(status := o.k.status)
    && o.k.status.phase == k.status.phase && o.k.status.observedGeneration == k.status.observedGeneration
    && o.k.status.retryCount == k.status.retryCount
    && o.y.w.kode.Some? && o.y.w.kode.value.status == o.k.status
  }

  lemma SaveLeaves(g: Setting, w: World, y: Sys, k: Kode, m: Kode, next: Phase, result: Result)
    requires Friendly(g) && Goes(w, y.w) && Idle(y.w)
    requires m == k.(status := m.status) && m.status.phase == k.status.phase && m.status.observedGeneration == k.status.observedGeneration
    requires m.status.retryCount == k.status.retryCount
    ensures Left(w, SaveAndReturn(g, y, m, next, result), k, next)
  {
    GoesTerminating(w, y.w);
    SaveGoes(g, y, m.status);
    hide UpdateStatus, Goes, Friendly, HandleReconcileError;
    GoesOn2(w, y.w, UpdateStatus(g, y, m.status).y.w);
  }

  /** The stored Kode is this one but for its status, and nothing is being deleted. */
  predicate IsStored(w: World, k: Kode) {
    w.kode.Some? && w.kode.value == k.(status := w.kode.value.status) && w.children.terminating == {} && w.ep.None?
  }

  predicate Rested(k: Kode, spec: KodeSpec) {
    k.spec == spec && k.finalizer && !k.deleting && k.generation == k.status.observedGeneration && k.status.retryCount == 0
  }

  lemma AdvanceLeaves(g: Setting, w: World, o: Out, k: Kode, spec: KodeSpec, next: Phase)
    requires Friendly(g) && Rested(k, spec) && IsStored(w, k) && Left(w, o, k, next) && k.status.phase != Active
    ensures var v := Advance(g, k.status.phase, o).y.w; Goes(w, v) && At(v, spec, next)
  {
    GoesTerminating(w, o.y.w);
    SaveGoes(g, o.y, WithPhase(o.k, next).status);
    GoesSpec(w, o.y.w);
    hide UpdateStatus, Goes, Friendly;
    var u := UpdateStatus(g, o.y, WithPhase(o.k, next).status);
    GoesOn2(w, o.y.w, u.y.w);
    if Goes(o.y.w, u.y.w) { GoesTerminating(o.y.w, u.y.w); }
  }

  lemma GoesSpec(w: World, v: World)
    requires Goes(w, v)
    ensures v.kode.value == w.kode.value.(status := v.kode.value.status)
  {
  }

  lemma PendingLeaves(g: Setting, y: Sys, spec: KodeSpec)
    requires Friendly(g) && Startable(g, spec) && At(y.w, spec, Pending)
    ensures Left(y.w, Handle(g, y, y.w.kode.value), y.w.kode.value, Configuring)
  {
    var k := y.w.kode.value;
    Mark3Only(k, False, PendingConfiguration, False, PendingConfiguration, True, ConfiguringResources, y.t);
    var m := Mark3(k, False, PendingConfiguration, False, PendingConfiguration, True, ConfiguringResources, y.t);
    assert Goes(y.w, y.w) by { GoesNowhere(y.w); }
    hide Mark3, SaveAndReturn, Friendly, Goes;
    SaveLeaves(g, y.w, y, k, m, Configuring, REQUEUE);
  }

  lemma GoesNowhere(w: World)
    requires w.kode.Some? && Calm(w)
    ensures Goes(w, w)
  {
  }

  lemma OwnConfigOf(g: Setting, spec: KodeSpec)
    requires Startable(g, spec)
    ensures V.OwnSecret(spec, ConfigOf(g, spec))
    ensures FreshOutcome(spec, ConfigOf(g, spec)) == Ok(ConfigOf(g, spec))
    ensures D.ManagesClaim(spec) ==> !D.StorageIsEmpty(spec.storage)
  {
    hide D.CreateLabels, D.StorageIsEmpty, T.Visible, D.KodeValid;
  }

  /** The Configuring handler makes the children of a Kode that has none; `w` is the world they are made in. */
  lemma ConfiguringLeaves(g: Setting, y: Sys, spec: KodeSpec) returns (w: World)
    requires Friendly(g) && Startable(g, spec) && At(y.w, spec, Configuring) && NoneYet(g, y.w.children, spec)
    ensures Left(w, HandleConfiguring(g, y, y.w.kode.value), y.w.kode.value, Provisioning)
    ensures IsStored(w, y.w.kode.value) && Made(g, w.children, spec, ConfigOf(g, spec))
  {
    var k := y.w.kode.value;
    var cfg := ConfigOf(g, spec);
    FetchGoes(g, y, k);
    OwnConfigOf(g, spec);
    var f := FetchTemplates(g, y, k);
    GoesKeeps(g, y.w, f.y.w, spec, cfg);
    GoesSpec(y.w, f.y.w);
    GoesTerminating(y.w, f.y.w);
    hide FetchTemplates, Friendly, Goes, D.InitConfig, T.Visible, Mark3, SaveAndReturn, Made, NotYet,
      HandleReconcileError, R.DetectChanges, R.ApplyParts, R.ValidateConfiguration, V.OwnSecret, FreshOutcome,
      D.StorageIsEmpty, D.ManagesClaim, AllParts;
    FreshChildrenAgree(g, f.y, spec, cfg);
    var d := R.DetectChanges(g, f.y, spec, cfg);
    var a := R.ApplyConfiguration(g, d.y, spec, cfg, AllParts(spec));
    var v := R.ValidateConfiguration(g, a.y, spec, cfg);
    assert Goes(a.y.w, v.y.w) by { DriftGoes(a.y.w, v.y.w); }
    w := a.y.w;
    Mark3Only(f.k, False, ConfiguringResources, False, ConfiguringResources, True, ConfiguringResources, v.y.t);
    var m := Mark3(f.k, False, ConfiguringResources, False, ConfiguringResources, True, ConfiguringResources, v.y.t);
    SaveLeaves(g, a.y.w, v.y, k, m, Provisioning, REQUEUE);
    hide Left;
  }

  lemma DriftGoes(w: World, v: World)
    requires Drift(w, v) && w.kode.Some? && Idle(w)
    ensures Goes(w, v)
  {
  }

  /** Whether the poll of a Provisioning reconcile finds the children ready. */
  function Poll(g: Setting, z: Sys, k: Kode): bool {
    var f := FetchTemplates(g, z, k);
    f.out.Ok? && R.CheckResourcesReady(g, f.y, f.k.spec, D.InitConfig(g.name, f.k.spec, f.out.value)).out == Ok(true)
  }

  lemma ProvisioningLeaves(g: Setting, y: Sys, spec: KodeSpec)
    requires Friendly(g) && Startable(g, spec) && At(y.w, spec, Provisioning)
    ensures var k := y.w.kode.value;
            Left(y.w, HandleProvisioning(g, y, k), k, if Poll(g, y, k) then Active else Provisioning)
  {
    var k := y.w.kode.value;
    FetchGoes(g, y, k);
    var f := FetchTemplates(g, y, k);
    GoesTerminating(y.w, f.y.w);
    var cfg := D.InitConfig(g.name, f.k.spec, f.out.value);
    ChecksGo(g, f.y, f.k.spec, cfg, R.CHECKS);
    var r := R.CheckResourcesReady(g, f.y, f.k.spec, cfg);
    hide FetchTemplates, Friendly, Goes, D.InitConfig, T.Visible, Mark3, SaveAndReturn, HandleReconcileError,
      R.RunChecks, Left;
    GoesOn2(y.w, f.y.w, r.y.w);
    Mark3Only(f.k, False, StillProvisioning, False, StillProvisioning, True, StillProvisioning, r.y.t);
    Mark3Only(f.k, True, ResourcesReady, True, ResourcesReady, False, Provisioned, r.y.t);
    if !r.out.value {
      SaveLeaves(g, y.w, r.y, k, Mark3(f.k, False, StillProvisioning, False, StillProvisioning, True, StillProvisioning, r.y.t),
                 Provisioning, Result(false, g.interval));
    } else {
      var m := Mark3(f.k, True, ResourcesReady, True, ResourcesReady, False, Provisioned, r.y.t);
      SaveLeaves(g, y.w, r.y, k, m.(status := m.status.(kodePort := f.out.value.spec.port)), Active, NO_REQUEUE);
    }
  }

  // ---- one reconcile after the other ----

  /** A new Kode, with none of its children there yet. */
  predicate New(g: Setting, w: World, spec: KodeSpec) {
    && w.kode.Some? && w.kode.value.spec == spec && !w.kode.value.deleting && !w.kode.value.finalizer
    && w.kode.value.status.retryCount == 0
    && NoneYet(g, w.children, spec) && Calm(w)
  }

  lemma FinalizerGoes(g: Setting, y: Sys)
    requires Friendly(g) && y.w.kode.Some? && Calm(y.w)
    ensures var a := AddFinalizer(g, y);
            a.err.None? && a.y.w.kode == Some(y.w.kode.value.(finalizer := true)) && Drift(y.w.(kode := None), a.y.w.(kode := None))
  {
    EnterGoes(g, y);
    hide Enter, Friendly, Up;
    assert Up(g, y);
  }

  lemma FirstReconcile(g: Setting, y: Sys, spec: KodeSpec)
    requires Friendly(g) && New(g, y.w, spec)
    ensures var v := Reconcile(g, y).y.w; At(v, spec, Pending) && NoneYet(g, v.children, spec)
  {
    EnterGoes(g, y);
    var z := Enter(g, y);
    var k := y.w.kode.value;
    GoesTerminating(y.w, z.w);
    FinalizerGoes(g, z);
    var a := AddFinalizer(g, z);
    var s := k.status.(phase := Pending, observedGeneration := k.generation);
    assert Calm(a.y.w) by { hide SameSet, SameClaims, Enter, AddFinalizer; }
    SaveGoes(g, a.y, s);
    var u := UpdateStatus(g, a.y, s);
    DriftsOn(y.w.(kode := None), z.w.(kode := None), a.y.w.(kode := None));
    DriftsOn(y.w.(kode := None), a.y.w.(kode := None), u.y.w.(kode := None));
    DriftKeepsNone(g, y.w.(kode := None), u.y.w.(kode := None), spec);
    hide Enter, AddFinalizer, UpdateStatus, Friendly, Drift, NotYet;
    GoesTerminating(a.y.w, u.y.w);
  }

  lemma SecondReconcile(g: Setting, y: Sys, spec: KodeSpec)
    requires Friendly(g) && Startable(g, spec) && At(y.w, spec, Pending) && NoneYet(g, y.w.children, spec)
    ensures var v := Reconcile(g, y).y.w; At(v, spec, Configuring) && NoneYet(g, v.children, spec)
  {
    ReconcileAt(g, y, spec, Pending);
    var z := Enter(g, y);
    var k := y.w.kode.value;
    PendingLeaves(g, z, spec);
    var o := Handle(g, z, k);
    hide Enter, Friendly, Startable, Handle, Reconcile, Goes, Left, NotYet, Advance;
    AdvanceLeaves(g, z.w, o, k, spec, Configuring);
    var v := Reconcile(g, y).y.w;
    GoesOn(y.w, z.w, v);
    NoneStays(g, y.w, v, spec);
  }

  lemma NoneStays(g: Setting, w: World, v: World, spec: KodeSpec)
    requires Goes(w, v) && NoneYet(g, w.children, spec)
    ensures NoneYet(g, v.children, spec)
  {
    DriftKeepsNone(g, w.(kode := None), v.(kode := None), spec);
    hide NotYet;
  }

  lemma ThirdReconcile(g: Setting, y: Sys, spec: KodeSpec)
    requires Friendly(g) && Startable(g, spec) && At(y.w, spec, Configuring) && NoneYet(g, y.w.children, spec)
    ensures var v := Reconcile(g, y).y.w; At(v, spec, Provisioning) && Made(g, v.children, spec, ConfigOf(g, spec))
  {
    ReconcileAt(g, y, spec, Configuring);
    var z := Enter(g, y);
    var k := y.w.kode.value;
    NoneStays(g, y.w, z.w, spec);
    var w := ConfiguringLeaves(g, z, spec);
    assert Handle(g, z, k) == HandleConfiguring(g, z, k) by { hide HandleConfiguring; }
    var o := HandleConfiguring(g, z, k);
    hide Enter, Friendly, Startable, HandleConfiguring, Handle, Reconcile, Goes, Left, Made, Advance, ConfigOf;
    AdvanceLeaves(g, w, o, k, spec, Provisioning);
    GoesKeeps(g, w, Reconcile(g, y).y.w, spec, ConfigOf(g, spec));
  }

  lemma NextReconcile(g: Setting, y: Sys, spec: KodeSpec)
    requires Friendly(g) && Startable(g, spec) && At(y.w, spec, Provisioning) && Made(g, y.w.children, spec, ConfigOf(g, spec))
    ensures var v := Reconcile(g, y).y.w;
            && At(v, spec, if Poll(g, Enter(g, y), y.w.kode.value) then Active else Provisioning)
            && Made(g, v.children, spec, ConfigOf(g, spec))
  {
    ReconcileAt(g, y, spec, Provisioning);
    var z := Enter(g, y);
    var k := y.w.kode.value;
    ProvisioningLeaves(g, z, spec);
    assert Handle(g, z, k) == HandleProvisioning(g, z, k) by { hide HandleProvisioning; }
    var o := HandleProvisioning(g, z, k);
    hide Enter, Friendly, Startable, HandleProvisioning, Handle, Reconcile, Goes, Left, Made, Advance, ConfigOf, Poll;
    AdvanceLeaves(g, z.w, o, k, spec, if Poll(g, z, k) then Active else Provisioning);
    var v := Reconcile(g, y).y.w;
    GoesOn(y.w, z.w, v);
    GoesKeeps(g, y.w, v, spec, ConfigOf(g, spec));
  }

  function Reconciles(g: Setting, y: Sys, n: nat): Sys
    decreases n
  {
    if n == 0 then y else Reconcile(g, Reconciles(g, y, n - 1)).y
  }

  /** Whether reconcile number n + 1 would find the Kode ready. */
  predicate ReadyAt(g: Setting, y: Sys, n: nat) {
    var r := Reconciles(g, y, n);
    r.w.kode.Some? && Poll(g, Enter(g, r), r.w.kode.value)
  }

  predicate PhaseAfter(g: Setting, y: Sys, n: nat, p: Phase) {
    Reconciles(g, y, n).w.kode.Some? && Reconciles(g, y, n).w.kode.value.status.phase == p
  }

  lemma FirstThree(g: Setting, y: Sys, spec: KodeSpec)
    requires Friendly(g) && Startable(g, spec) && New(g, y.w, spec)
    ensures PhaseAfter(g, y, 1, Pending) && PhaseAfter(g, y, 2, Configuring)
    ensures At(Reconciles(g, y, 3).w, spec, Provisioning) && Made(g, Reconciles(g, y, 3).w.children, spec, ConfigOf(g, spec))
  {
    hide Reconcile, Friendly, Startable, Made, NotYet, ConfigOf;
    FirstReconcile(g, y, spec);
    var y1 := Reconcile(g, y).y;
    SecondReconcile(g, y1, spec);
    var y2 := Reconcile(g, y1).y;
    ThirdReconcile(g, y2, spec);
    assert Reconciles(g, y, 0) == y;
    assert Reconciles(g, y, 1) == y1;
    assert Reconciles(g, y, 2) == y2;
    assert Reconciles(g, y, 3) == Reconcile(g, y2).y;
  }

  lemma {:induction false} Polling(g: Setting, y: Sys, spec: KodeSpec, k: nat)
    requires Friendly(g) && Startable(g, spec) && New(g, y.w, spec)
    requires forall n: nat :: 3 <= n < 3 + k ==> !ReadyAt(g, y, n)
    ensures At(Reconciles(g, y, 3 + k).w, spec, Provisioning) && Made(g, Reconciles(g, y, 3 + k).w.children, spec, ConfigOf(g, spec))
    decreases k
  {
    hide Reconcile, Friendly, Startable, Made, NotYet, ConfigOf, New, Poll, Enter;
    if k == 0 {
      FirstThree(g, y, spec);
    } else {
      Polling(g, y, spec, k - 1);
      assert !ReadyAt(g, y, 3 + (k - 1));
      NextReconcile(g, Reconciles(g, y, 3 + (k - 1)), spec);
    }
  }

  /** Startup makes progress: after reconcile 1 the Kode is Pending, after 2 Configuring; it is Provisioning
      from reconcile 3 on for as long as the polls, one a reconcile, find it not ready; and when k polls
      have, it is Active after reconcile 4 + k, with all its children made. */
  lemma StartupReachesActive(g: Setting, y: Sys, spec: KodeSpec, k: nat)
    requires Friendly(g) && Startable(g, spec) && New(g, y.w, spec)
    ensures PhaseAfter(g, y, 1, Pending) && PhaseAfter(g, y, 2, Configuring)
    ensures (forall n: nat :: 3 <= n < 3 + k ==> !ReadyAt(g, y, n)) && ReadyAt(g, y, 3 + k) ==>
              && (forall n: nat :: 3 <= n <= 3 + k ==> PhaseAfter(g, y, n, Provisioning))
              && PhaseAfter(g, y, 4 + k, Active)
              && Made(g, Reconciles(g, y, 4 + k).w.children, spec, ConfigOf(g, spec))
  {
    hide Reconcile, Friendly, Startable, Made, NotYet, ConfigOf, New, Poll, Enter;
    FirstThree(g, y, spec);
    if (forall n: nat :: 3 <= n < 3 + k ==> !ReadyAt(g, y, n)) && ReadyAt(g, y, 3 + k) {
      forall n: nat | 3 <= n <= 3 + k ensures PhaseAfter(g, y, n, Provisioning) {
        Polling(g, y, spec, n - 3);
      }
      Polling(g, y, spec, k);
      NextReconcile(g, Reconciles(g, y, 3 + k), spec);
      assert Reconciles(g, y, 4 + k) == Reconcile(g, Reconciles(g, y, 3 + k)).y;
    }
  }
}

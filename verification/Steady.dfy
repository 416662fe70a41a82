/** Steady state: an Active Kode with ready children that nobody touches is left exactly as it is by every
    reconcile after the first; and a Provisioning Kode becomes Active exactly when its children are ready. */
module Steady {
  import opened KodeTypes
  import opened Cluster
  import opened Handlers
  import A = Agreement
  import C = Conditions
  import D = Desired
  import HS = HandlerSafety
  import I = Invariants
  import R = Resources
  import Sa = Safety
  import T = Templates

  /** An Active Kode with ready children and its generation observed. */
  predicate ActiveReady(g: Setting, w: World) {
    && w.kode.Some?
    && ActiveCopy(g, w.kode.value)
    && A.ReadyNow(g, w.children, w.kode.value.spec, A.ConfigOf(g, w.kode.value.spec))
  }

  predicate ActiveCopy(g: Setting, k: Kode) {
    && k.finalizer && !k.deleting && k.status.phase == Active && k.generation == k.status.observedGeneration && k.status.retryCount == 0
    && T.Visible(g.store, k.spec.templateRef).Ok?
    && I.HasAll(k.status)
  }

  /** The status with the template's runtime class and port in it. */
  function Filled(g: Setting, k: Kode): Status
    requires T.Visible(g.store, k.spec.templateRef).Ok?
  {
    var s := if T.IsContainerKind(k.spec.templateRef.kind) then k.status.(runtime := Some(A.TemplateOf(g, k.spec).spec.runtimeClass)) else k.status;
    s.(kodePort := A.TemplateOf(g, k.spec).spec.port)
  }

  /** Nothing is left to write: status filled in, and the three conditions those of a healthy Kode. */
  predicate Steady(g: Setting, w: World) {
    && ActiveReady(g, w)
    && var k := w.kode.value;
    && k.status == Filled(g, k)
    && C.Is(k.status.conditions, Ready, True) && C.Is(k.status.conditions, Available, True) && C.Is(k.status.conditions, Progressing, False)
  }

  function WithStatus(y: Sys, s: Status): Sys
    requires y.w.kode.Some?
  {
    y.(w := y.w.(kode := Some(y.w.kode.value.(status := s))))
  }

  lemma QuietSave(g: Setting, y: Sys, s: Status)
    requires Quiet(g) && y.w.kode.Some?
    ensures UpdateStatus(g, y, s) == Ack(WithStatus(y, s).(t := y.t + 1, log := y.log + [s]), None)
  {
    A.EnterQuiet(g, y);
    hide Enter, Quiet, Up;
  }

  lemma QuietFetch(g: Setting, y: Sys, k: Kode)
    requires Quiet(g) && y.w.kode.Some? && y.w.kode.value == k && T.Visible(g.store, k.spec.templateRef).Ok?
    ensures var f := FetchTemplates(g, y, k);
            var s := Filled(g, k).(kodePort := k.status.kodePort);
            && f.out == Ok(A.TemplateOf(g, k.spec)) && f.k == k.(status := s) && f.y.w == WithStatus(y, s).w
            && f.y.log == (if T.IsContainerKind(k.spec.templateRef.kind) then y.log + [s] else y.log)
  {
    A.EnterQuiet(g, y);
    var z := Enter(g, y);
    var t := A.TemplateOf(g, k.spec);
    QuietSave(g, z, k.status.(runtime := Some(t.spec.runtimeClass)));
    hide Enter, Quiet, Up, UpdateStatus, T.Visible, T.IsContainerKind;
  }

  lemma RefreshUnchanged(r: Refreshed, kind: ConditionType, status: ConditionStatus, reason: Reason, now: nat)
    ensures var q := Refresh(r, kind, status, reason, now); !q.changed ==> q.s == r.s && !r.changed
  {
    hide C.Get, C.Set;
  }

  lemma RefreshAllUnchanged(s: Status, now: nat)
    ensures !RefreshAll(s, now).changed ==> RefreshAll(s, now).s == s
  {
    var r0 := Refreshed(s, false, false);
    var r1 := Refresh(r0, Ready, True, ResourcesHealthy, now);
    var r2 := Refresh(r1, Available, True, ServiceAvailable, now);
    RefreshUnchanged(r0, Ready, True, ResourcesHealthy, now);
    RefreshUnchanged(r1, Available, True, ServiceAvailable, now);
    RefreshUnchanged(r2, Progressing, False, Stable, now);
    hide Refresh;
  }

  /** What the Active handler does in a quiet cluster: one status, filled in and refreshed. */
  lemma ActiveHandles(g: Setting, y: Sys) returns (now: nat)
    requires Quiet(g) && ActiveReady(g, y.w)
    ensures var k := y.w.kode.value;
            var o := HandleActive(g, y, k);
            && o.y.w == WithStatus(y, RefreshAll(Filled(g, k), now).s).w
            && o.phase == Active && o.result == Result(false, g.longInterval) && o.err.None?
            && |o.y.log| >= |y.log| + if RefreshAll(Filled(g, k), now).changed then 1 else 0
  {
    hide Quiet, UpdateStatus, FetchTemplates, R.CheckResourcesReady, A.ReadyNow, D.InitConfig, T.Visible, RefreshAll,
      HandleReconcileError, I.HasAll;
    var k := y.w.kode.value;
    QuietFetch(g, y, k);
    var f := FetchTemplates(g, y, k);
    A.ReadyMeaning(g, f.y, f.k.spec, A.ConfigOf(g, k.spec));
    var r := R.CheckResourcesReady(g, f.y, f.k.spec, A.ConfigOf(g, k.spec));
    var n := f.k.(status := f.k.status.(kodePort := A.TemplateOf(g, k.spec).spec.port));
    QuietSave(g, r.y, n.status);
    var y2 := if f.k.status.kodePort != A.TemplateOf(g, k.spec).spec.port then UpdateStatus(g, r.y, n.status).y else r.y;
    now := y2.t;
    FilledHasAll(g, k);
    HS.RefreshAllMeaning(Filled(g, k), now);
    RefreshAllUnchanged(Filled(g, k), now);
    QuietSave(g, y2, RefreshAll(Filled(g, k), now).s);
    assert n.status == Filled(g, k);
  }

  lemma FilledHasAll(g: Setting, k: Kode)
    requires ActiveCopy(g, k)
    ensures I.HasAll(Filled(g, k))
  {
    hide C.Get, T.Visible;
  }

  lemma ActiveIsHandled(g: Setting, y: Sys, k: Kode)
    requires k.status.phase == Active
    ensures var o := HandleActive(g, y, k);
            o.err.None? && o.phase == Active ==> HandleState(g, y, k) == Done(o.y, o.result, None)
  {
    hide HandleActive, UpdateStatus;
  }

  lemma ActiveReconciles(g: Setting, y: Sys) returns (now: nat)
    requires Quiet(g) && ActiveReady(g, y.w)
    ensures var k := y.w.kode.value;
            var d := Reconcile(g, y);
            && d.y.w == WithStatus(y, RefreshAll(Filled(g, k), now).s).w
            && d.result == Result(false, g.longInterval) && d.err.None?
            && |d.y.log| >= |y.log| + if RefreshAll(Filled(g, k), now).changed then 1 else 0
  {
    hide Quiet, Enter, Up, HandleActive, RefreshAll, T.Visible, A.ReadyNow, I.HasAll, Filled, UpdateStatus,
      HandleGenerationMismatch, Initialise;
    A.EnterQuiet(g, y);
    now := ActiveHandles(g, Enter(g, y));
    ActiveIsHandled(g, Enter(g, y), y.w.kode.value);
    hide HandleState;
  }

  /** In a steady status the refresh finds every condition's status right, so SetCondition changes nothing,
      reason and time included, although a reason that differs makes it ask for a write. */
  lemma SteadyRefresh(s: Status, now: nat)
    requires C.Is(s.conditions, Ready, True) && C.Is(s.conditions, Available, True) && C.Is(s.conditions, Progressing, False)
    ensures RefreshAll(s, now).s == s && !RefreshAll(s, now).panicked
    ensures RefreshAll(s, now).changed <==>
              C.Get(s.conditions, Ready).value.reason != ResourcesHealthy || C.Get(s.conditions, Available).value.reason != ServiceAvailable
              || C.Get(s.conditions, Progressing).value.reason != Stable
  {
    C.SetMeaning(s.conditions, Condition(Ready, True, ResourcesHealthy, now));
    C.SetMeaning(s.conditions, Condition(Available, True, ServiceAvailable, now));
    C.SetMeaning(s.conditions, Condition(Progressing, False, Stable, now));
    hide C.Set, C.Get;
  }

  lemma FillingTwice(g: Setting, k: Kode, s: Status)
    requires T.Visible(g.store, k.spec.templateRef).Ok? && s == Filled(g, k).(conditions := s.conditions)
    ensures Filled(g, k.(status := s)) == s
  {
  }

  /** The first reconcile makes it steady. */
  lemma FirstReconcileSettles(g: Setting, y: Sys)
    requires Quiet(g) && ActiveReady(g, y.w)
    ensures Steady(g, Reconcile(g, y).y.w) && Reconcile(g, y).y.w.children == y.w.children
  {
    hide Reconcile, Quiet, RefreshAll, C.Get, C.Is;
    var now := ActiveReconciles(g, y);
    var k := y.w.kode.value;
    var s := RefreshAll(Filled(g, k), now).s;
    FilledHasAll(g, k);
    HS.RefreshAllMeaning(Filled(g, k), now);
    FillingTwice(g, k, s);
    hide Filled;
    SameConfig(g, k, s);
    assert Filled(g, k).phase == Active && Filled(g, k).retryCount == 0 && Filled(g, k).observedGeneration == k.generation by {
      FilledKeeps(g, k);
    }
  }

  lemma FilledKeeps(g: Setting, k: Kode)
    requires T.Visible(g.store, k.spec.templateRef).Ok?
    ensures var s := Filled(g, k); s.phase == k.status.phase && s.retryCount == k.status.retryCount && s.observedGeneration == k.status.observedGeneration
  {
  }

  lemma SameConfig(g: Setting, k: Kode, s: Status)
    requires T.Visible(g.store, k.spec.templateRef).Ok?
    ensures A.ConfigOf(g, k.(status := s).spec) == A.ConfigOf(g, k.spec)
  {
  }

  /** From then on a reconcile leaves the whole cluster as it is, asks to be called after the long interval,
      and still writes the status if a reason differs. */
  lemma SteadyStays(g: Setting, y: Sys)
    requires Quiet(g) && Steady(g, y.w)
    ensures var d := Reconcile(g, y);
            d.y.w == y.w && d.err.None? && d.result == Result(false, g.longInterval)
    ensures C.Get(y.w.kode.value.status.conditions, Ready).value.reason != ResourcesHealthy ==> |Reconcile(g, y).y.log| > |y.log|
  {
    var now := ActiveReconciles(g, y);
    SteadyRefresh(y.w.kode.value.status, now);
    hide Reconcile, Quiet, RefreshAll, Filled, C.Get, C.Is, ActiveReady;
  }

  lemma {:induction false} SteadyRun(g: Setting, y: Sys, events: seq<Event>)
    requires Quiet(g) && Steady(g, y.w)
    ensures Run(g, y, events).w == y.w
    decreases |events|
  {
    hide Reconcile, Steady, Enter, Quiet;
    if events != [] {
      SteadyStays(g, y);
      A.EnterQuiet(g, y);
      SteadyRun(g, Step(g, y, events[0]), events[1..]);
    }
  }

  /** The theorem: in a quiet cluster, one reconcile of an Active Kode with ready children settles the
      stored status and all children for good, transition times included. */
  lemma SteadyForever(g: Setting, y: Sys, events: seq<Event>)
    requires Quiet(g) && ActiveReady(g, y.w)
    ensures Run(g, Reconcile(g, y).y, events).w == Reconcile(g, y).y.w
  {
    hide Reconcile, Steady, Quiet, Run, ActiveReady;
    FirstReconcileSettles(g, y);
    SteadyRun(g, Reconcile(g, y).y, events);
  }

  // ---- Active by way of readiness ----

  predicate ProvisioningCopy(g: Setting, k: Kode) {
    && k.finalizer && !k.deleting && k.status.phase == Provisioning && k.generation == k.status.observedGeneration && k.status.retryCount == 0
    && T.Visible(g.store, k.spec.templateRef).Ok?
  }

  /** What the status says after a reconcile of a Provisioning Kode. */
  predicate Tells(g: Setting, k: Kode, ready: bool, s: Status) {
    && s.phase == (if ready then Active else Provisioning)
    && C.Is(s.conditions, Ready, if ready then True else False) && C.Is(s.conditions, Available, if ready then True else False)
    && C.Is(s.conditions, Progressing, if ready then False else True)
    && T.Visible(g.store, k.spec.templateRef).Ok?
    && s.kodePort == (if ready then A.TemplateOf(g, k.spec).spec.port else k.status.kodePort)
  }

  lemma ProvisioningHandles(g: Setting, y: Sys)
    requires Quiet(g) && y.w.kode.Some? && ProvisioningCopy(g, y.w.kode.value)
    ensures var k := y.w.kode.value;
            var o := HandleProvisioning(g, y, k);
            var ready := A.ReadyNow(g, y.w.children, k.spec, A.ConfigOf(g, k.spec));
            && o.err.None? && o.phase == (if ready then Active else Provisioning)
            && o.k == k.(status := o.k.status) && Tells(g, k, ready, o.k.status.(phase := o.phase))
            && o.y.w == WithStatus(y, o.k.status).w && o.k.status.phase == Provisioning
  {
    hide Quiet, UpdateStatus, FetchTemplates, R.CheckResourcesReady, A.ReadyNow, D.InitConfig, T.Visible, Mark3,
      HandleReconcileError, C.Get;
    var k := y.w.kode.value;
    QuietFetch(g, y, k);
    var f := FetchTemplates(g, y, k);
    A.ReadyMeaning(g, f.y, f.k.spec, A.ConfigOf(g, k.spec));
    var r := R.CheckResourcesReady(g, f.y, f.k.spec, A.ConfigOf(g, k.spec));
    var a := Mark3(f.k, False, StillProvisioning, False, StillProvisioning, True, StillProvisioning, r.y.t);
    var b := Mark3(f.k, True, ResourcesReady, True, ResourcesReady, False, Provisioned, r.y.t);
    Sa.Mark3Meaning(f.k, False, StillProvisioning, False, StillProvisioning, True, StillProvisioning, r.y.t);
    Sa.Mark3Meaning(f.k, True, ResourcesReady, True, ResourcesReady, False, Provisioned, r.y.t);
    QuietSave(g, r.y, a.status);
    QuietSave(g, r.y, b.status.(kodePort := A.TemplateOf(g, k.spec).spec.port));
  }

  /** A Provisioning Kode becomes Active exactly when its children are ready; its conditions and port say so. */
  lemma ProvisioningWaitsForReadiness(g: Setting, y: Sys)
    requires Quiet(g) && y.w.kode.Some? && ProvisioningCopy(g, y.w.kode.value)
    ensures var k := y.w.kode.value;
            var v := Reconcile(g, y).y.w;
            && v.children == y.w.children && v.kode.Some?
            && Tells(g, k, A.ReadyNow(g, y.w.children, k.spec, A.ConfigOf(g, k.spec)), v.kode.value.status)
  {
    hide Enter, Quiet, Up, HandleProvisioning, T.Visible, A.ReadyNow, UpdateStatus, HandleGenerationMismatch,
      Initialise, C.Get, D.InitConfig;
    A.EnterQuiet(g, y);
    var z := Enter(g, y);
    var k := y.w.kode.value;
    ProvisioningHandles(g, z);
    var o := HandleProvisioning(g, z, k);
    QuietSave(g, o.y, WithPhase(o.k, Active).status);
    ProvisioningIsHandled(g, z, k);
    hide HandleState;
  }

  lemma ProvisioningIsHandled(g: Setting, y: Sys, k: Kode)
    requires k.status.phase == Provisioning
    ensures HandleState(g, y, k) == Advance(g, Provisioning, HandleProvisioning(g, y, k))
  {
    hide HandleProvisioning, Advance;
  }
}

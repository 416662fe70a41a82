/** A run, from a new Kode to its end, in which an edit makes an orphan: the operator makes its secret, the
    user points the Kode at another one and deletes it, and the operator lets the Kode go with its own
    secret still there. */
module Orphan {
  import opened KodeTypes
  import opened Cluster
  import opened Handlers
  import opened Deletion
  import D = Desired
  import R = Resources
  import RS = Runs
  import S = ChildResources
  import T = Templates

  /** Nobody acts before this call and it gets through. */
  predicate Clear(g: Setting, n: nat) { g.script(n).acts == [] && g.script(n).ok }

  lemma EnterClear(g: Setting, y: Sys)
    requires Clear(g, y.t)
    ensures Enter(g, y) == y.(t := y.t + 1) && Up(g, y)
  {
  }

  lemma SaveClear(g: Setting, y: Sys, s: Status)
    requires Clear(g, y.t) && y.w.kode.Some?
    ensures UpdateStatus(g, y, s) == Ack(Sys(WithStatus(y.w, s), y.t + 1, y.log + [s]), None)
  {
    SaveStill(g, y, s);
  }

  /** The stored Kode is `k` but for its status, whose phase, generation and retry count are these. */
  predicate Has(w: World, k: Kode, p: Phase, generation: int) {
    && w.kode.Some? && w.kode.value == k.(status := w.kode.value.status)
    && w.kode.value.status.phase == p && w.kode.value.status.observedGeneration == generation && w.kode.value.status.retryCount == 0
    && w.kode.value.status.deletionCycle == 0
  }

  /** Nothing but the Kode differs. */
  predicate SameBut(w: World, v: World) { v == w.(kode := v.kode) }

  // ---- reconcile 1: finalizer and Pending ----

  lemma Initialises(g: Setting, y: Sys, k: Kode)
    requires Clear(g, y.t) && Clear(g, y.t + 1) && Clear(g, y.t + 2)
    requires y.w.kode == Some(k) && !k.finalizer && !k.deleting && k.status.retryCount == 0 && k.status.deletionCycle == 0
    ensures var r := Reconcile(g, y).y;
            r.t == y.t + 3 && SameBut(y.w, r.w) && Has(r.w, k.(finalizer := true), Pending, k.generation)
  {
    EnterClear(g, y);
    var z := Enter(g, y);
    EnterClear(g, z);
    var a := AddFinalizer(g, z).y;
    hide Enter, UpdateStatus;
    SaveClear(g, a, k.status.(phase := Pending, observedGeneration := k.generation));
  }

  // ---- reconcile 2: Configuring ----

  lemma ReconcileIs(g: Setting, y: Sys)
    requires Clear(g, y.t) && y.w.kode.Some?
    requires y.w.kode.value.finalizer && !y.w.kode.value.deleting && y.w.kode.value.status.phase != Uninitialised
    requires y.w.kode.value.generation == y.w.kode.value.status.observedGeneration && y.w.kode.value.status.retryCount == 0
    ensures var z := y.(t := y.t + 1);
            Reconcile(g, y).y == Advance(g, y.w.kode.value.status.phase, Handle(g, z, y.w.kode.value)).y
  {
    EnterClear(g, y);
    hide Enter, Handle, Advance;
  }

  lemma Configures(g: Setting, y: Sys, k: Kode)
    requires Clear(g, y.t) && Clear(g, y.t + 1) && Clear(g, y.t + 2)
    requires y.w.kode == Some(k) && k.finalizer && !k.deleting && Has(y.w, k, Pending, k.generation) && D.KodeValid(k.spec)
    ensures var r := Reconcile(g, y).y;
            r.t == y.t + 3 && SameBut(y.w, r.w) && Has(r.w, k, Configuring, k.generation)
  {
    ReconcileIs(g, y);
    var z := y.(t := y.t + 1);
    var m := Mark3(k, False, PendingConfiguration, False, PendingConfiguration, True, ConfiguringResources, z.t);
    Mark3Only(k, False, PendingConfiguration, False, PendingConfiguration, True, ConfiguringResources, z.t);
    SaveClear(g, z, m.status);
    var u := UpdateStatus(g, z, m.status);
    SaveClear(g, u.y, WithPhase(m, Configuring).status);
    hide Mark3, UpdateStatus, Reconcile, D.KodeValid, HandleReconcileError;
    assert Handle(g, z, k) == Out(u.y, m, Configuring, REQUEUE, None);
  }

  // ---- reconcile 3: the secret is made, and the next call fails ----

  lemma Fetches(g: Setting, y: Sys, k: Kode)
    requires Clear(g, y.t) && Clear(g, y.t + 1) && y.w.kode == Some(k)
    requires T.Visible(g.store, k.spec.templateRef).Ok? && T.IsContainerKind(k.spec.templateRef.kind)
    ensures var f := FetchTemplates(g, y, k);
            && f.out == T.Visible(g.store, k.spec.templateRef)
            && f.y.t == y.t + 2 && f.y.w == WithStatus(y.w, f.k.status)
            && f.k == k.(status := k.status.(runtime := f.k.status.runtime))
  {
    EnterClear(g, y);
    var t := T.Visible(g.store, k.spec.templateRef).value;
    SaveClear(g, y.(t := y.t + 1), k.status.(runtime := Some(t.spec.runtimeClass)));
    hide Enter, UpdateStatus, T.Visible, T.IsContainerKind;
  }

  lemma DetectsAll(g: Setting, y: Sys, spec: KodeSpec, cfg: D.Config)
    requires Clear(g, y.t) && Clear(g, y.t + 1) && Clear(g, y.t + 2)
    requires spec.storage.None? && SecretAt(y.w.children, D.SecretName(g.name, spec)).None?
    requires y.w.children.service.None? && y.w.children.stateful.None?
    ensures R.DetectChanges(g, y, spec, cfg) == R.Ret(y.(t := y.t + 3), Ok({R.SecretPart, R.ServicePart, R.SetPart}))
  {
    EnterClear(g, y);
    EnterClear(g, y.(t := y.t + 1));
    EnterClear(g, y.(t := y.t + 2));
    hide Enter, D.SecretName;
    assert R.DetectSecret(g, y, spec, cfg) == R.Ret(y.(t := y.t + 1), Ok(true));
    assert R.DetectService(g, y.(t := y.t + 1), cfg) == R.Ret(y.(t := y.t + 2), Ok(true));
    assert R.DetectSet(g, y.(t := y.t + 2), cfg) == R.Ret(y.(t := y.t + 3), Ok(true));
    assert R.Mark(R.SecretPart, true) + R.Mark(R.ServicePart, true) + R.Mark(R.SetPart, true) == {R.SecretPart, R.ServicePart, R.SetPart};
  }

  /** The secret has been made and nothing else. */
  predicate OnlySecretMade(g: Setting, w: World, v: World, spec: KodeSpec) {
    var key := D.SecretName(g.name, spec);
    && v.children == w.children.(secrets := v.children.secrets) && v.children.secrets.Keys == w.children.secrets.Keys + {key}
    && v == w.(kode := v.kode, children := v.children, owned := w.owned + {SecretKey(key)})
  }

  lemma MakesSecret(g: Setting, y: Sys, spec: KodeSpec, cfg: D.Config)
    requires Clear(g, y.t) && g.script(y.t + 1).acts == [] && !g.script(y.t + 1).ok
    requires cfg.credentials.existingSecret.None?
    ensures var a := R.ApplyConfiguration(g, y, spec, cfg, {R.SecretPart, R.ServicePart, R.SetPart});
            && a.out == Bad(Refused) && a.y.t == y.t + 2 && a.y.w.kode == y.w.kode && OnlySecretMade(g, y.w, a.y.w, spec)
  {
    var changes := {R.SecretPart, R.ServicePart, R.SetPart};
    var rest: seq<R.Part> := [R.ServicePart, R.SetPart, R.ClaimPart];
    assert R.ORDER[1..] == rest;
    EnterClear(g, y);
    EnterStill(g, R.EnsureSecret(g, y, spec, cfg).y);
    S.ApplyStep(g, y, spec, cfg, changes, R.ORDER);
    S.ApplyStep(g, R.EnsureSecret(g, y, spec, cfg).y, spec, cfg, changes, rest);
    hide Enter, R.ApplyParts, D.EnsuredSecret, D.SecretName;
  }

  lemma HalfHandles(g: Setting, y: Sys, k: Kode)
    requires forall n: nat :: y.t <= n < y.t + 6 ==> Clear(g, n)
    requires g.script(y.t + 6).acts == [] && !g.script(y.t + 6).ok && Clear(g, y.t + 7)
    requires y.w.kode == Some(k) && Has(y.w, k, Configuring, k.generation)
    requires T.Visible(g.store, k.spec.templateRef).Ok? && T.IsContainerKind(k.spec.templateRef.kind)
    requires k.spec.storage.None? && k.spec.credentials.None? && SecretAt(y.w.children, D.SecretName(g.name, k.spec)).None?
    requires y.w.children.service.None? && y.w.children.stateful.None?
    ensures var o := HandleConfiguring(g, y, k);
            && o.err == Some(Refused) && o.y.t == y.t + 8
            && Has(o.y.w, k, Configuring, k.generation) && OnlySecretMade(g, y.w, o.y.w, k.spec)
  {
    hide FetchTemplates, R.DetectChanges, R.ApplyParts, UpdateStatus, Mark3, T.Visible, T.IsContainerKind, D.CreateLabels,
      D.SecretName, SaveAndReturn;
    Fetches(g, y, k);
    var f := FetchTemplates(g, y, k);
    var cfg := D.InitConfig(g.name, f.k.spec, f.out.value);
    DetectsAll(g, f.y, f.k.spec, cfg);
    var d := f.y.(t := f.y.t + 3);
    MakesSecret(g, d, f.k.spec, cfg);
    var a := R.ApplyConfiguration(g, d, f.k.spec, cfg, {R.SecretPart, R.ServicePart, R.SetPart});
    Mark3Only(f.k, False, ReconciliationFailed, False, ReconciliationFailed, False, ReconciliationFailed, a.y.t);
    SaveClear(g, a.y, Failing(f.k, Refused, a.y.t).status);
  }

  lemma HalfConfigures(g: Setting, y: Sys, k: Kode)
    requires forall n: nat :: y.t <= n < y.t + 7 ==> Clear(g, n)
    requires g.script(y.t + 7).acts == [] && !g.script(y.t + 7).ok && Clear(g, y.t + 8)
    requires y.w.kode == Some(k) && k.finalizer && !k.deleting && Has(y.w, k, Configuring, k.generation)
    requires T.Visible(g.store, k.spec.templateRef).Ok? && T.IsContainerKind(k.spec.templateRef.kind)
    requires k.spec.storage.None? && k.spec.credentials.None? && SecretAt(y.w.children, D.SecretName(g.name, k.spec)).None?
    requires y.w.children.service.None? && y.w.children.stateful.None?
    ensures var r := Reconcile(g, y).y;
            && r.t == y.t + 9 && Has(r.w, k, Configuring, k.generation) && OnlySecretMade(g, y.w, r.w, k.spec)
  {
    hide Reconcile, HandleConfiguring, T.Visible, T.IsContainerKind, D.SecretName, UpdateStatus;
    ReconcileIs(g, y);
    HalfHandles(g, y.(t := y.t + 1), k);
    assert Handle(g, y.(t := y.t + 1), k) == HandleConfiguring(g, y.(t := y.t + 1), k);
  }

  // ---- reconcile 4: edited and deleted, the generation is caught up with ----

  lemma CatchesUp(g: Setting, y: Sys, k: Kode, spec: KodeSpec)
    requires g.script(y.t) == Tick([Edit(spec), DeleteKode], true) && Clear(g, y.t + 1) && Clear(g, y.t + 2)
    requires y.w.kode == Some(k) && k.finalizer && !k.deleting && Has(y.w, k, Configuring, k.generation)
    ensures var r := Reconcile(g, y).y;
            && r.t == y.t + 3 && SameBut(y.w, r.w)
            && Has(r.w, k.(spec := spec, deleting := true, generation := k.generation + 2), Deleting, k.generation + 2)
  {
    var e := k.(spec := spec, deleting := true, generation := k.generation + 2);
    var z := Enter(g, y);
    var w1 := Act1(g, y.w, Edit(spec), y.t);
    assert [Edit(spec), DeleteKode][1..] == [DeleteKode] && [DeleteKode][1..] == [];
    assert Others(g, w1, [DeleteKode], y.t) == Act1(g, w1, DeleteKode, y.t);
    assert z == Sys(y.w.(kode := Some(e)), y.t + 1, y.log);
    var m := WithPhase(e, Deleting);
    SaveClear(g, z, m.status);
    var u := UpdateStatus(g, z, m.status);
    SaveClear(g, u.y, m.status.(observedGeneration := m.generation));
    hide Enter, UpdateStatus;
  }

  // ---- reconcile 5: nothing the new spec names is there ----

  lemma LetsGo(g: Setting, y: Sys, k: Kode)
    requires forall n: nat :: y.t <= n < y.t + 7 ==> Clear(g, n)
    requires y.w.kode == Some(k) && k.finalizer && k.deleting && Has(y.w, k, Deleting, k.generation)
    requires k.spec.storage.None? && y.w.children.stateful.None? && y.w.children.service.None?
    requires SecretAt(y.w.children, D.SecretName(g.name, k.spec)).None?
    ensures var r := Reconcile(g, y).y; r.w.kode.None? && r.w.released == Some(k.spec) && r.w.children == y.w.children && r.w.owned == y.w.owned
  {
    EnterClear(g, y);
    DeletingReconciles(g, y) by { EnterClear(g, Enter(g, y)); }
    var z := Enter(g, y);
    SaveClear(g, z, WithPhase(k, Deleting).status);
    var u := UpdateStatus(g, z, WithPhase(k, Deleting).status).y;
    assert WithPhase(k, Deleting) == k;
    hide Reconcile, Enter, UpdateStatus;
    Releases(g, u, k);
  }

  lemma Releases(g: Setting, y: Sys, k: Kode)
    requires forall n: nat :: y.t <= n < y.t + 5 ==> Clear(g, n)
    requires y.w.kode.Some? && y.w.kode.value.deleting && k.finalizer
    requires k.spec.storage.None? && y.w.children.stateful.None? && y.w.children.service.None?
    requires SecretAt(y.w.children, D.SecretName(g.name, k.spec)).None?
    ensures var o := HandleDeleting(g, y, k);
            o.y.w.kode.None? && o.y.w.released == Some(k.spec) && o.y.w.children == y.w.children && o.y.w.owned == y.w.owned
  {
    var m := Mark3(k, False, DeletingResource, False, DeletingResource, True, DeletingResource, y.t);
    Mark3Only(k, False, DeletingResource, False, DeletingResource, True, DeletingResource, y.t);
    SaveClear(g, y, m.status);
    var u := UpdateStatus(g, y, m.status).y;
    NothingThere(g, u, m.spec);
    var v := u.(t := u.t + 3);
    EnterClear(g, v);
    hide Mark3, Enter, UpdateStatus, R.CheckResourcesDeleted, D.SecretName, R.RequiredAbsent, R.CheckAbsent;
    assert R.CheckResourcesDeleted(g, u, m.spec) == R.Ret(v, Ok(true));
  }

  lemma NothingThere(g: Setting, y: Sys, spec: KodeSpec)
    requires Clear(g, y.t) && Clear(g, y.t + 1) && Clear(g, y.t + 2)
    requires spec.storage.None? && y.w.children.stateful.None? && y.w.children.service.None?
    requires SecretAt(y.w.children, D.SecretName(g.name, spec)).None?
    ensures R.CheckResourcesDeleted(g, y, spec) == R.Ret(y.(t := y.t + 3), Ok(true))
  {
    var keys: seq<Key> := [SetKey, SecretKey(D.SecretName(g.name, spec)), ServiceKey];
    assert R.RequiredAbsent(g, spec) == keys;
    EnterClear(g, y);
    EnterClear(g, y.(t := y.t + 1));
    EnterClear(g, y.(t := y.t + 2));
    hide Enter, D.SecretName, R.RequiredAbsent;
    var k2: seq<Key> := [ServiceKey];
    var k1: seq<Key> := [SecretKey(D.SecretName(g.name, spec)), ServiceKey];
    assert keys[1..] == k1 && k1[1..] == k2 && k2[1..] == [];
    assert R.CheckAbsent(g, y.(t := y.t + 3), []) == R.Ret(y.(t := y.t + 3), Ok(true));
    assert R.CheckAbsent(g, y.(t := y.t + 2), k2) == R.Ret(y.(t := y.t + 3), Ok(true));
    assert R.CheckAbsent(g, y.(t := y.t + 1), k1) == R.Ret(y.(t := y.t + 3), Ok(true));
  }

  // ---- the run ----

  /** The template the Kode refers to. */
  const TEMPLATE: TemplateSpec := TemplateSpec(3000, CodeServer, "image", "", "UTC", 1000, 1000, "/config", "workspace", [], [], [], None)
  const REF: Reference := Reference(T.CONTAINER, "t", Some("ns"))
  const SPEC: KodeSpec := KodeSpec(REF, None, None, None, None, [])

  /** The edited spec names a secret of the user's. */
  const EDITED: KodeSpec := SPEC.(credentials := Some(Credentials("abc", "", Some("mine"), false)))

  /** Call 13, the write of the service, fails; before call 15 the user edits and deletes. */
  function Script(n: nat): Tick { Tick(if n == 15 then [Edit(EDITED), DeleteKode] else [], n != 13) }

  function TheSetting(): Setting {
    Setting("k", T.Store(map[("ns", "t") := TEMPLATE], map[], map[]), D.Lib((a, b) => a, n => "", a => a), false, 1, 1, Script)
  }

  function TheKode(): Kode { Kode(SPEC, 1, false, false, Status(Uninitialised, 0, [], None, None, None, 0, None, 0, 0)) }

  function TheStart(): Sys {
    Sys(World(Some(TheKode()), Children(map[], None, None, map[], [], {}), None, None, {}, None), 0, [])
  }

  lemma AllClear(n: nat)
    requires n != 13 && n != 15
    ensures Clear(TheSetting(), n)
  {
  }

  lemma Names()
    ensures D.SecretName("k", SPEC) == D.OwnSecretName("k")
    ensures D.SecretName("k", EDITED) == "mine" && |D.OwnSecretName("k")| != |"mine"|
    ensures var g := TheSetting(); T.Visible(g.store, REF) == Ok(Template("t", TEMPLATE, None)) && T.IsContainerKind(REF.kind)
  {
    assert T.NamespaceOf(REF) == "ns";
  }

  /** From a new Kode, five reconciles, with one failed call, one edit and one deletion by the user, take the
      Kode away and leave the secret the operator made, which no longer is the one the Kode names. */
  lemma EditThenDeleteOrphans()
    ensures var g := TheSetting();
            var w := Run(g, TheStart(), [ReconcileNow, ReconcileNow, ReconcileNow, ReconcileNow, ReconcileNow]).w;
            && RS.Start(g, TheStart())
            && w.kode.None? && w.released == Some(EDITED)
            && D.OwnSecretName(g.name) in w.children.secrets && SecretKey(D.OwnSecretName(g.name)) in w.owned
  {
    var g := TheSetting();
    var y0 := TheStart();
    Starts();
    Names();
    forall n: nat | n != 13 && n != 15 ensures Clear(g, n) { AllClear(n); }
    assert g.script(13).acts == [] && !g.script(13).ok && g.script(15) == Tick([Edit(EDITED), DeleteKode], true);
    assert g.name == "k" && y0.w.kode == Some(TheKode());
    hide TheSetting, Reconcile, Run, T.Visible, D.SecretName, D.OwnSecretName, RS.Start, Clear;
    OrphanRun(g, y0, TheKode(), EDITED);
    FiveReconciles(g, y0);
  }

  lemma FiveReconciles(g: Setting, y: Sys)
    ensures Run(g, y, [ReconcileNow, ReconcileNow, ReconcileNow, ReconcileNow, ReconcileNow]) == FiveTimes(g, y)
  {
    hide Reconcile;
    var e1: seq<Event> := [ReconcileNow];
    var e2, e3, e4 := e1 + e1, e1 + e1 + e1, e1 + e1 + e1 + e1;
    assert [ReconcileNow, ReconcileNow, ReconcileNow, ReconcileNow, ReconcileNow][1..] == e4;
    assert e4[1..] == e3 && e3[1..] == e2 && e2[1..] == e1 && e1[1..] == [];
    var y1 := Reconcile(g, y).y;
    var y2 := Reconcile(g, y1).y;
    var y3 := Reconcile(g, y2).y;
    var y4 := Reconcile(g, y3).y;
    assert Run(g, y4, e1) == Reconcile(g, y4).y;
    assert Run(g, y3, e2) == Run(g, y4, e1);
    assert Run(g, y2, e3) == Run(g, y3, e2);
    assert Run(g, y1, e4) == Run(g, y2, e3);
  }

  function FiveTimes(g: Setting, y: Sys): Sys {
    Reconcile(g, Reconcile(g, Reconcile(g, Reconcile(g, Reconcile(g, y).y).y).y).y).y
  }

  lemma OrphanRun(g: Setting, y: Sys, k: Kode, edited: KodeSpec)
    requires y.t == 0 && (forall n: nat :: n != 13 && n != 15 ==> Clear(g, n))
    requires g.script(13).acts == [] && !g.script(13).ok && g.script(15) == Tick([Edit(edited), DeleteKode], true)
    requires y.w.kode == Some(k) && !k.finalizer && !k.deleting && k.status.retryCount == 0 && k.status.deletionCycle == 0
    requires T.Visible(g.store, k.spec.templateRef).Ok? && T.IsContainerKind(k.spec.templateRef.kind)
    requires D.KodeValid(k.spec) && k.spec.storage.None? && k.spec.credentials.None? && edited.storage.None?
    requires D.SecretName(g.name, edited) != D.SecretName(g.name, k.spec)
    requires y.w.children == Children(map[], None, None, map[], [], {})
    ensures var r := FiveTimes(g, y);
            && r.w.kode.None? && r.w.released == Some(edited)
            && D.SecretName(g.name, k.spec) in r.w.children.secrets && SecretKey(D.SecretName(g.name, k.spec)) in r.w.owned
  {
    hide Reconcile, T.Visible, T.IsContainerKind, D.SecretName, D.KodeValid, Clear;
    Initialises(g, y, k);
    var y1 := Reconcile(g, y).y;
    var k1 := y1.w.kode.value;
    Configures(g, y1, k1);
    var y2 := Reconcile(g, y1).y;
    var k2 := y2.w.kode.value;
    HalfConfigures(g, y2, k2);
    var y3 := Reconcile(g, y2).y;
    SecondHalf(g, y3, y3.w.kode.value, k.spec, edited);
  }

  lemma SecondHalf(g: Setting, y: Sys, k: Kode, spec: KodeSpec, edited: KodeSpec)
    requires y.t == 15 && (forall n: nat :: n != 13 && n != 15 ==> Clear(g, n))
    requires g.script(15) == Tick([Edit(edited), DeleteKode], true)
    requires y.w.kode == Some(k) && k.finalizer && !k.deleting && Has(y.w, k, Configuring, k.generation)
    requires edited.storage.None? && D.SecretName(g.name, edited) != D.SecretName(g.name, spec)
    requires y.w.children.stateful.None? && y.w.children.service.None?
    requires y.w.children.secrets.Keys == {D.SecretName(g.name, spec)} && SecretKey(D.SecretName(g.name, spec)) in y.w.owned
    ensures var r := Reconcile(g, Reconcile(g, y).y).y;
            && r.w.kode.None? && r.w.released == Some(edited)
            && D.SecretName(g.name, spec) in r.w.children.secrets && SecretKey(D.SecretName(g.name, spec)) in r.w.owned
  {
    hide Reconcile, D.SecretName, Clear;
    CatchesUp(g, y, k, edited);
    var y4 := Reconcile(g, y).y;
    LetsGo(g, y4, y4.w.kode.value);
  }

  lemma Starts()
    ensures RS.Start(TheSetting(), TheStart())
  {
  }
}

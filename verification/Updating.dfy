/** When a reconcile of an Updating Kode makes it Active, exactly, in a quiet cluster; and so when Active does
    not mean ready. Detection and apply are given as functions of the children, to be read off before the
    reconcile. */
module Updating {
  import opened KodeTypes
  import opened Cluster
  import opened Handlers
  import opened Steady
  import A = Agreement
  import C = Conditions
  import D = Desired
  import R = Resources
  import Sa = Safety
  import T = Templates
  import V = Convergence

  // ---- detection as a function of the children ----

  /** The pods left once the outdated ones of those listed have been deleted. */
  function PodsLeft(pods: seq<Pod>, listed: seq<Pod>, cfg: D.Config, desired: StatefulSet): seq<Pod>
    decreases |listed|
  {
    if listed == [] then pods
    else PodsLeft(if D.PodOutdated(listed[0], cfg, desired) then R.WithoutPod(pods, listed[0].name) else pods, listed[1..], cfg, desired)
  }

  /** The children as detection leaves them. */
  function Detected(g: Setting, c: Children, cfg: D.Config): Children {
    var desired := D.DesiredSet(g.lib, g.name, cfg);
    if c.stateful.None? || desired.Bad? then c else c.(pods := PodsLeft(c.pods, c.pods, cfg, desired.value))
  }

  /** Detection does not fail: what it has to construct to compare can be constructed. */
  predicate Detectable(g: Setting, c: Children, spec: KodeSpec, cfg: D.Config) {
    && (c.stateful.Some? ==> D.DesiredSet(g.lib, g.name, cfg).Ok?)
    && (V.WantsClaim(spec) && ClaimAt(c, D.ClaimName(g.name, spec)).Some? ==> spec.storage.value.resources.Some?)
  }

  /** What detection reports. */
  function StaleParts(g: Setting, c: Children, spec: KodeSpec, cfg: D.Config): set<R.Part> {
    set p: R.Part | V.Stale(g, c, spec, cfg, p)
  }

  lemma {:induction false} PodsDeleted(g: Setting, y: Sys, listed: seq<Pod>, cfg: D.Config, desired: StatefulSet)
    requires Quiet(g)
    ensures var z := R.DeleteOutdated(g, y, listed, cfg, desired);
            z.w == y.w.(children := y.w.children.(pods := PodsLeft(y.w.children.pods, listed, cfg, desired)))
    decreases |listed|
  {
    hide Quiet, Enter, Up, D.PodOutdated, R.WithoutPod;
    if listed != [] {
      if D.PodOutdated(listed[0], cfg, desired) {
        A.EnterQuiet(g, y);
        var z := Enter(g, y);
        assert y.w.owned + {} == y.w.owned;
        PodsDeleted(g, PutChildren(z, z.w.children.(pods := R.WithoutPod(z.w.children.pods, listed[0].name)), {}), listed[1..], cfg, desired);
      } else {
        PodsDeleted(g, y, listed[1..], cfg, desired);
      }
    }
  }

  lemma SetDetected(g: Setting, y: Sys, cfg: D.Config)
    requires Quiet(g)
    ensures var r := R.DetectSet(g, y, cfg);
            && r.y.w == y.w.(children := Detected(g, y.w.children, cfg))
            && (r.out.Ok? <==> (y.w.children.stateful.Some? ==> D.DesiredSet(g.lib, g.name, cfg).Ok?))
  {
    A.EnterQuiet(g, y);
    A.EnterQuiet(g, Enter(g, y));
    var v := Enter(g, Enter(g, y));
    hide Quiet, Enter, Up, D.DesiredSet, D.SetSpecDiffers, D.AnyOutdated, R.DeleteOutdated, PodsLeft;
    if D.DesiredSet(g.lib, g.name, cfg).Ok? {
      PodsDeleted(g, v, v.w.children.pods, cfg, D.DesiredSet(g.lib, g.name, cfg).value);
    }
  }

  lemma DetectionIs(g: Setting, y: Sys, spec: KodeSpec, cfg: D.Config)
    requires Quiet(g) && cfg.spec == spec
    ensures var d := R.DetectChanges(g, y, spec, cfg);
            && d.y.w.kode == y.w.kode
            && (d.out.Ok? <==> Detectable(g, y.w.children, spec, cfg))
            && (d.out.Ok? ==> d.y.w == y.w.(children := Detected(g, y.w.children, cfg)))
  {
    hide Quiet, Enter, Up, R.DetectSet, D.SecretStale, D.ServiceStale, D.ClaimDiffers, D.DesiredSet, D.SecretName, D.ClaimName, PodsLeft;
    A.EnterQuiet(g, y);
    var a := R.DetectSecret(g, y, spec, cfg);
    A.EnterQuiet(g, a.y);
    var b := R.DetectService(g, a.y, cfg);
    SetDetected(g, b.y, cfg);
    A.EnterQuiet(g, R.DetectSet(g, b.y, cfg).y);
  }

  lemma DetectionFinds(g: Setting, y: Sys, spec: KodeSpec, cfg: D.Config)
    requires Quiet(g) && cfg.spec == spec && Detectable(g, y.w.children, spec, cfg)
    ensures R.DetectChanges(g, y, spec, cfg).out == Ok(StaleParts(g, y.w.children, spec, cfg))
  {
    hide R.DetectChanges, Quiet, Detectable, V.Stale;
    V.QuietIsAlone(g);
    DetectionIs(g, y, spec, cfg);
    V.DetectMeaning(g, y, spec, cfg);
    assert R.DetectChanges(g, y, spec, cfg).out.value == StaleParts(g, y.w.children, spec, cfg);
  }

  /** With nothing stale there is no outdated pod, and detection leaves everything as it is. */
  lemma {:induction false} NothingOutdated(pods: seq<Pod>, listed: seq<Pod>, cfg: D.Config, desired: StatefulSet)
    requires forall i :: 0 <= i < |listed| ==> !D.PodOutdated(listed[i], cfg, desired)
    ensures PodsLeft(pods, listed, cfg, desired) == pods
    decreases |listed|
  {
    hide D.PodOutdated;
    if listed != [] {
      NothingOutdated(pods, listed[1..], cfg, desired);
    }
  }

  lemma NothingStaleStays(g: Setting, c: Children, spec: KodeSpec, cfg: D.Config)
    requires !V.Stale(g, c, spec, cfg, R.SetPart)
    ensures Detected(g, c, cfg) == c
  {
    var desired := D.DesiredSet(g.lib, g.name, cfg);
    hide D.DesiredSet, D.PodOutdated, D.SetSpecDiffers, PodsLeft;
    if c.stateful.Some? && desired.Ok? {
      NothingOutdated(c.pods, c.pods, cfg, desired.value);
    }
  }

  lemma {:induction false} PodsLeftAre(pods: seq<Pod>, listed: seq<Pod>, cfg: D.Config, desired: StatefulSet)
    ensures forall p :: p in PodsLeft(pods, listed, cfg, desired) <==>
                          p in pods && forall q :: q in listed && D.PodOutdated(q, cfg, desired) ==> q.name != p.name
    decreases |listed|
  {
    hide D.PodOutdated;
    if listed != [] {
      assert forall q :: q in listed <==> q == listed[0] || q in listed[1..];
      if D.PodOutdated(listed[0], cfg, desired) {
        V.WithoutPodMeaning(pods, listed[0].name);
        PodsLeftAre(R.WithoutPod(pods, listed[0].name), listed[1..], cfg, desired);
      } else {
        PodsLeftAre(pods, listed[1..], cfg, desired);
      }
    }
  }

  /** Detection in a quiet cluster takes exactly the outdated pods, if no two pods have the same name. */
  lemma OutdatedPodsGo(g: Setting, c: Children, cfg: D.Config)
    requires forall p, q :: p in c.pods && q in c.pods && p.name == q.name ==> p == q
    ensures var desired := D.DesiredSet(g.lib, g.name, cfg);
            forall p :: p in Detected(g, c, cfg).pods <==>
                          p in c.pods && !(c.stateful.Some? && desired.Ok? && D.PodOutdated(p, cfg, desired.value))
  {
    hide D.PodOutdated, D.DesiredSet, PodsLeft;
    var desired := D.DesiredSet(g.lib, g.name, cfg);
    if c.stateful.Some? && desired.Ok? {
      PodsLeftAre(c.pods, c.pods, cfg, desired.value);
    }
  }

  // ---- apply as a function of the children ----

  datatype Applied = Applied(c: Children, cfg: D.Config)

  function EnsureIn(g: Setting, a: Applied, spec: KodeSpec, p: R.Part): Outcome<Applied> {
    var c := a.c;
    match p
    case SecretPart =>
      var n := D.SecretName(g.name, spec);
      if a.cfg.credentials.existingSecret.None? then
        Ok(a.(c := c.(secrets := c.secrets[n := D.EnsuredSecret(SecretAt(c, n), a.cfg)])))
      else if SecretAt(c, n).None? then Bad(NotFound)
      else (match D.LoadCredentials(SecretAt(c, n).value, a.cfg.credentials)
            case Bad(e) => Bad(e)
            case Ok(loaded) => Ok(a.(cfg := a.cfg.(credentials := loaded))))
    case ServicePart => Ok(a.(c := c.(service := Some(D.DesiredService(a.cfg)))))
    case SetPart =>
      (match D.DesiredSet(g.lib, g.name, a.cfg)
       case Bad(e) => Bad(e)
       case Ok(desired) => Ok(a.(c := c.(stateful := Some(D.EnsuredSet(c.stateful, desired))))))
    case ClaimPart =>
      if !V.WantsClaim(spec) then Ok(a)
      else (match D.DesiredClaim(spec.storage.value)
            case Bad(e) => Bad(e)
            case Ok(desired) =>
              var n := D.ClaimName(g.name, spec);
              Ok(a.(c := c.(claims := c.claims[n := D.EnsuredClaim(ClaimAt(c, n), desired)]))))
  }

  /** The children and the configuration after an apply of these parts, or its error. */
  function ApplyIn(g: Setting, a: Applied, spec: KodeSpec, changes: set<R.Part>, order: seq<R.Part>): Outcome<Applied>
    decreases |order|
  {
    if order == [] then Ok(a)
    else if order[0] !in changes then ApplyIn(g, a, spec, changes, order[1..])
    else
      match EnsureIn(g, a, spec, order[0])
      case Bad(e) => Bad(e)
      case Ok(b) => ApplyIn(g, b, spec, changes, order[1..])
  }

  /** A step of the cluster that ends as the function of the children says. */
  predicate Ends(y: Sys, r: R.Ret<D.Config>, o: Outcome<Applied>) {
    && r.y.w.kode == y.w.kode
    && match o
       case Bad(e) => r.out == Bad(e)
       case Ok(a) => r.out == Ok(a.cfg) && r.y.w.children == a.c
  }

  lemma EnsureEnds(g: Setting, y: Sys, spec: KodeSpec, cfg: D.Config, p: R.Part)
    requires Quiet(g) && cfg.spec == spec
    ensures Ends(y, R.EnsurePart(g, y, spec, cfg, p), EnsureIn(g, Applied(y.w.children, cfg), spec, p))
    ensures var o := EnsureIn(g, Applied(y.w.children, cfg), spec, p);
            o.Ok? ==> o.value.cfg == cfg.(credentials := o.value.cfg.credentials)
  {
    A.EnterQuiet(g, y);
    hide Quiet, Enter, Up, D.DesiredSet, D.EnsuredSet, D.EnsuredSecret, D.EnsuredClaim, D.SecretName, D.ClaimName, D.StorageIsEmpty,
      D.DesiredService;
  }

  lemma {:induction false} ApplyEnds(g: Setting, y: Sys, spec: KodeSpec, cfg: D.Config, changes: set<R.Part>, order: seq<R.Part>)
    requires Quiet(g) && cfg.spec == spec
    ensures Ends(y, R.ApplyParts(g, y, spec, cfg, changes, order), ApplyIn(g, Applied(y.w.children, cfg), spec, changes, order))
    ensures var o := ApplyIn(g, Applied(y.w.children, cfg), spec, changes, order);
            o.Ok? ==> o.value.cfg == cfg.(credentials := o.value.cfg.credentials)
    decreases |order|
  {
    hide Quiet, R.EnsurePart, EnsureIn;
    if order != [] {
      if order[0] in changes {
        EnsureEnds(g, y, spec, cfg, order[0]);
        var r := R.EnsurePart(g, y, spec, cfg, order[0]);
        if r.out.Ok? {
          ApplyEnds(g, r.y, spec, r.out.value, changes, order[1..]);
        }
      } else {
        ApplyEnds(g, y, spec, cfg, changes, order[1..]);
      }
    }
  }

  lemma ValidatesQuietly(g: Setting, y: Sys, spec: KodeSpec, cfg: D.Config)
    requires Quiet(g) && cfg.spec == spec
    ensures var v := R.ValidateConfiguration(g, y, spec, cfg);
            v.y.w == y.w && (v.err.None? <==> A.ValidNow(g, y.w.children, spec, cfg))
  {
    hide Quiet, Enter, Up, D.SecretValid, D.ServiceValid, D.SetValid, D.ValidateClaim, D.SecretName, D.ClaimName;
    A.EnterQuiet(g, y);
    var a := R.ValidateSecret(g, y, spec, cfg);
    A.EnterQuiet(g, a.y);
    var b := R.ValidateService(g, a.y, cfg);
    A.EnterQuiet(g, b.y);
    var c := R.ValidateSet(g, b.y, cfg);
    A.EnterQuiet(g, c.y);
  }

  // ---- the exact condition ----

  /** Something is stale, and what is applied for it succeeds, is valid and is ready. */
  predicate UpdateSucceeds(g: Setting, c: Children, spec: KodeSpec, cfg: D.Config) {
    var o := ApplyIn(g, Applied(Detected(g, c, cfg), cfg), spec, StaleParts(g, c, spec, cfg), R.ORDER);
    o.Ok? && A.ValidNow(g, o.value.c, spec, o.value.cfg) && A.ReadyNow(g, o.value.c, spec, o.value.cfg)
  }

  predicate GoesActive(g: Setting, c: Children, spec: KodeSpec, cfg: D.Config) {
    Detectable(g, c, spec, cfg) && (StaleParts(g, c, spec, cfg) == {} || UpdateSucceeds(g, c, spec, cfg))
  }

  predicate UpdatingCopy(g: Setting, k: Kode) {
    && k.finalizer && !k.deleting && k.status.phase == Updating && k.generation == k.status.observedGeneration && k.status.retryCount == 0
    && T.Visible(g.store, k.spec.templateRef).Ok?
  }

  /** Readiness does not look at the credentials. */
  lemma SameReadiness(g: Setting, c: Children, spec: KodeSpec, a: D.Config, b: D.Config)
    requires a == b.(credentials := a.credentials)
    ensures A.ReadyNow(g, c, spec, a) <==> A.ReadyNow(g, c, spec, b)
  {
    hide D.SecretHasFields, D.PodsReady, D.SecretName, D.ClaimName;
  }

  /** The stored Kode is `k` but for its status, and still Updating. */
  predicate StillUpdating(w: World, k: Kode) {
    w.kode.Some? && w.kode.value == k.(status := w.kode.value.status) && w.kode.value.status.phase == Updating
  }

  /** A handler's end without reaching Active. */
  predicate Stays(o: Out, k: Kode) { StillUpdating(o.y.w, k) && (o.err.Some? || o.phase == Updating) }

  /** A handler's end in Active, with these children. */
  predicate Arrives(o: Out, k: Kode, c: Children) {
    && o.err.None? && o.phase == Active && StillUpdating(o.y.w, k) && o.k == k.(status := o.k.status)
    && C.Is(o.k.status.conditions, Ready, True) && o.y.w.children == c
  }

  lemma ErrorStays(g: Setting, y: Sys, k: Kode, m: Kode, e: Err)
    requires Quiet(g) && StillUpdating(y.w, k) && m == k.(status := m.status) && m.status.phase == Updating
    ensures Stays(HandleReconcileError(g, y, m, e), k)
  {
    Mark3Only(m, False, ReconciliationFailed, False, ReconciliationFailed, False, ReconciliationFailed, y.t);
    QuietSave(g, y, Failing(m, e, y.t).status);
    hide Quiet, UpdateStatus, Mark3;
  }

  lemma SaveEnds(g: Setting, y: Sys, k: Kode, m: Kode, next: Phase, result: Result)
    requires Quiet(g) && StillUpdating(y.w, k) && m == k.(status := m.status) && m.status.phase == Updating
    ensures var o := SaveAndReturn(g, y, m, next, result);
            && o.err.None? && o.phase == next && o.k == m && StillUpdating(o.y.w, k) && o.y.w.children == y.w.children
  {
    QuietSave(g, y, m.status);
    hide Quiet, UpdateStatus, HandleReconcileError;
  }

  lemma Finishes(g: Setting, y: Sys, k: Kode, m: Kode, port: int, ready: bool)
    requires Quiet(g) && StillUpdating(y.w, k) && m == k.(status := m.status) && m.status.phase == Updating
    ensures var o := FinishUpdate(g, y, m, port, ready);
            if ready then Arrives(o, k, y.w.children) else Stays(o, k)
  {
    hide Quiet, SaveAndReturn, Mark2, Mark3, C.Get;
    if ready {
      var n := m.(status := m.status.(observedGeneration := m.generation, kodePort := port));
      var q := Mark3(n, True, UpdateComplete, True, ServiceAvailable, False, UpdateComplete, y.t);
      Sa.Mark3Meaning(n, True, UpdateComplete, True, ServiceAvailable, False, UpdateComplete, y.t);
      SaveEnds(g, y, k, q, Active, NO_REQUEUE);
    } else {
      var q := Mark2(m, True, UpdateInProgress, False, UpdateInProgress, y.t);
      Sa.Mark2Meaning(m, True, UpdateInProgress, False, UpdateInProgress, y.t);
      SaveEnds(g, y, k, q, Updating, Result(false, g.interval));
    }
  }

  lemma NoChangesArrive(g: Setting, y: Sys, k: Kode, m: Kode)
    requires Quiet(g) && StillUpdating(y.w, k) && m == k.(status := m.status) && m.status.phase == Updating
    ensures var n := m.(status := m.status.(observedGeneration := m.generation));
            Arrives(SaveAndReturn(g, y, Mark2(n, False, NoChanges, True, ResourcesHealthy, y.t), Active, REQUEUE), k, y.w.children)
  {
    hide Quiet, SaveAndReturn, Mark2, C.Get;
    var n := m.(status := m.status.(observedGeneration := m.generation));
    Sa.Mark2Meaning(n, False, NoChanges, True, ResourcesHealthy, y.t);
    SaveEnds(g, y, k, Mark2(n, False, NoChanges, True, ResourcesHealthy, y.t), Active, REQUEUE);
  }

  /** The children a reconcile that makes the Kode Active leaves. */
  function Left(g: Setting, c: Children, spec: KodeSpec, cfg: D.Config): Children
    requires GoesActive(g, c, spec, cfg)
  {
    if StaleParts(g, c, spec, cfg) == {} then c
    else ApplyIn(g, Applied(Detected(g, c, cfg), cfg), spec, StaleParts(g, c, spec, cfg), R.ORDER).value.c
  }

  /** The Updating handler from its detection on. */
  function AfterFetch(g: Setting, y: Sys, k: Kode, t: Template): Out {
    var cfg := D.InitConfig(g.name, k.spec, t);
    var d := R.DetectChanges(g, y, k.spec, cfg);
    if d.out.Bad? then HandleReconcileError(g, d.y, k, d.out.err)
    else if d.out.value == {} then
      var m := k.(status := k.status.(observedGeneration := k.generation));
      SaveAndReturn(g, d.y, Mark2(m, False, NoChanges, True, ResourcesHealthy, d.y.t), Active, REQUEUE)
    else AfterDetect(g, d.y, k, t, cfg, d.out.value)
  }

  function AfterDetect(g: Setting, y: Sys, k: Kode, t: Template, cfg: D.Config, changes: set<R.Part>): Out {
    var a := R.ApplyConfiguration(g, y, k.spec, cfg, changes);
    if a.out.Bad? then HandleReconcileError(g, a.y, k, a.out.err)
    else
      var v := R.ValidateConfiguration(g, a.y, k.spec, a.out.value);
      if v.err.Some? then HandleReconcileError(g, v.y, k, v.err.value)
      else
        var r := R.CheckResourcesReady(g, v.y, k.spec, a.out.value);
        if r.out.Bad? then HandleReconcileError(g, r.y, k, r.out.err)
        else FinishUpdate(g, r.y, k, t.spec.port, r.out.value)
  }

  lemma HandlerSplits(g: Setting, y: Sys, k: Kode)
    ensures var f := FetchTemplates(g, y, k);
            f.out.Ok? ==> HandleUpdating(g, y, k) == AfterFetch(g, f.y, f.k, f.out.value)
  {
    hide FetchTemplates, HandleReconcileError, SaveAndReturn, R.DetectChanges, R.ApplyConfiguration, R.ValidateConfiguration,
      R.CheckResourcesReady, FinishUpdate, Mark2, D.InitConfig;
  }

  lemma AppliesAndEnds(g: Setting, y: Sys, k: Kode, m: Kode, t: Template, cfg: D.Config, changes: set<R.Part>)
    requires Quiet(g) && StillUpdating(y.w, k) && m == k.(status := m.status) && m.status.phase == Updating && cfg.spec == k.spec
    ensures var a := ApplyIn(g, Applied(y.w.children, cfg), k.spec, changes, R.ORDER);
            var o := AfterDetect(g, y, m, t, cfg, changes);
            if a.Ok? && A.ValidNow(g, a.value.c, k.spec, a.value.cfg) && A.ReadyNow(g, a.value.c, k.spec, a.value.cfg)
            then Arrives(o, k, a.value.c) else Stays(o, k)
  {
    ApplyEnds(g, y, k.spec, cfg, changes, R.ORDER);
    hide Quiet, HandleReconcileError, R.ApplyParts, R.ValidateConfiguration, R.RunChecks, FinishUpdate, ApplyIn, A.ValidNow, A.ReadyNow,
      Arrives, Stays;
    var a := R.ApplyConfiguration(g, y, k.spec, cfg, changes);
    if a.out.Bad? {
      ErrorStays(g, a.y, k, m, a.out.err);
    } else {
      ValidatesQuietly(g, a.y, k.spec, a.out.value);
      var v := R.ValidateConfiguration(g, a.y, k.spec, a.out.value);
      if v.err.Some? {
        ErrorStays(g, v.y, k, m, v.err.value);
      } else {
        A.ReadyMeaning(g, v.y, k.spec, a.out.value);
        var r := R.CheckResourcesReady(g, v.y, k.spec, a.out.value);
        Finishes(g, r.y, k, m, t.spec.port, r.out.value);
      }
    }
  }

  lemma FetchedEnds(g: Setting, y: Sys, k: Kode, m: Kode, t: Template)
    requires Quiet(g) && StillUpdating(y.w, k) && m == k.(status := m.status) && m.status.phase == Updating
    ensures var cfg := D.InitConfig(g.name, k.spec, t);
            var c := y.w.children;
            var o := AfterFetch(g, y, m, t);
            if GoesActive(g, c, k.spec, cfg) then Arrives(o, k, Left(g, c, k.spec, cfg)) else Stays(o, k)
  {
    var cfg := D.InitConfig(g.name, k.spec, t);
    assert cfg.spec == k.spec by { hide D.CreateLabels; }
    hide Quiet, HandleReconcileError, R.DetectChanges, AfterDetect, ApplyIn, A.ValidNow, A.ReadyNow, Arrives, Stays, SaveAndReturn, Mark2,
      D.InitConfig, Detectable, Detected, StaleParts;
    var d := R.DetectChanges(g, y, k.spec, cfg);
    DetectionIs(g, y, k.spec, cfg);
    if d.out.Bad? {
      ErrorStays(g, d.y, k, m, d.out.err);
    } else {
      DetectionFinds(g, y, k.spec, cfg);
      if d.out.value == {} {
        NoChangesArrive(g, d.y, k, m);
        NothingStale(g, y.w.children, k.spec, cfg);
      } else {
        AppliesAndEnds(g, d.y, k, m, t, cfg, d.out.value);
      }
    }
  }

  lemma NothingStale(g: Setting, c: Children, spec: KodeSpec, cfg: D.Config)
    requires StaleParts(g, c, spec, cfg) == {}
    ensures Detected(g, c, cfg) == c
  {
    hide V.Stale, Detected;
    assert R.SetPart !in StaleParts(g, c, spec, cfg);
    NothingStaleStays(g, c, spec, cfg);
  }

  lemma UpdatingHandles(g: Setting, y: Sys)
    requires Quiet(g) && y.w.kode.Some? && UpdatingCopy(g, y.w.kode.value)
    ensures var k := y.w.kode.value;
            var cfg := A.ConfigOf(g, k.spec);
            var o := HandleUpdating(g, y, k);
            if GoesActive(g, y.w.children, k.spec, cfg) then Arrives(o, k, Left(g, y.w.children, k.spec, cfg)) else Stays(o, k)
  {
    var k := y.w.kode.value;
    QuietFetch(g, y, k);
    HandlerSplits(g, y, k);
    var f := FetchTemplates(g, y, k);
    hide Quiet, FetchTemplates, HandleUpdating, AfterFetch, GoesActive, Arrives, Stays, T.Visible, T.IsContainerKind, Left;
    FetchedEnds(g, f.y, k, f.k, f.out.value);
  }

  lemma UpdatingIsHandled(g: Setting, y: Sys, k: Kode)
    requires k.status.phase == Updating
    ensures HandleState(g, y, k) == Advance(g, Updating, HandleUpdating(g, y, k))
  {
    hide HandleUpdating, Advance;
  }

  /** When a reconcile of an Updating Kode makes it Active, exactly: when nothing is stale, whatever the
      readiness; or when what is stale is applied, is valid and is ready. Otherwise it stays Updating. */
  lemma UpdatingGoesActiveExactly(g: Setting, y: Sys)
    requires Quiet(g) && y.w.kode.Some? && UpdatingCopy(g, y.w.kode.value)
    ensures var spec := y.w.kode.value.spec;
            var cfg := A.ConfigOf(g, spec);
            var v := Reconcile(g, y).y.w;
            && v.kode.Some?
            && (v.kode.value.status.phase == Active <==> GoesActive(g, y.w.children, spec, cfg))
            && (v.kode.value.status.phase != Active ==> v.kode.value.status.phase == Updating)
            && (GoesActive(g, y.w.children, spec, cfg) ==>
                  v.children == Left(g, y.w.children, spec, cfg) && C.Is(v.kode.value.status.conditions, Ready, True))
  {
    hide Quiet, Enter, Up, HandleUpdating, GoesActive, T.Visible, Left, UpdateStatus, HandleGenerationMismatch, Initialise, C.Get, D.InitConfig;
    A.EnterQuiet(g, y);
    var z := Enter(g, y);
    var k := y.w.kode.value;
    UpdatingHandles(g, z);
    var o := HandleUpdating(g, z, k);
    if o.y.w.kode.Some? {
      QuietSave(g, o.y, WithPhase(o.k, Active).status);
    }
    UpdatingIsHandled(g, z, k);
    hide HandleState;
  }

  /** So Active does not mean ready, exactly then: an Updating Kode becomes Active without being ready if and
      only if nothing is stale and the children are not ready. */
  lemma ActiveWithoutReadyExactly(g: Setting, y: Sys)
    requires Quiet(g) && y.w.kode.Some? && UpdatingCopy(g, y.w.kode.value)
    ensures var spec := y.w.kode.value.spec;
            var cfg := A.ConfigOf(g, spec);
            var v := Reconcile(g, y).y.w;
            && v.kode.Some?
            && (v.kode.value.status.phase == Active && !A.ReadyNow(g, v.children, spec, cfg) <==>
                  && Detectable(g, y.w.children, spec, cfg) && StaleParts(g, y.w.children, spec, cfg) == {}
                  && !A.ReadyNow(g, y.w.children, spec, cfg))
  {
    var spec := y.w.kode.value.spec;
    var cfg := A.ConfigOf(g, spec);
    assert cfg.spec == spec by { hide D.CreateLabels, T.Visible, Quiet; }
    hide Quiet, Reconcile, Detectable, StaleParts, A.ReadyNow, A.ValidNow, ApplyIn, Detected, T.Visible, D.InitConfig, C.Get, A.ConfigOf;
    UpdatingGoesActiveExactly(g, y);
    if GoesActive(g, y.w.children, spec, cfg) && StaleParts(g, y.w.children, spec, cfg) != {} {
      var o := ApplyIn(g, Applied(Detected(g, y.w.children, cfg), cfg), spec, StaleParts(g, y.w.children, spec, cfg), R.ORDER);
      AppliedConfig(g, Applied(Detected(g, y.w.children, cfg), cfg), spec, StaleParts(g, y.w.children, spec, cfg), R.ORDER);
      SameReadiness(g, o.value.c, spec, o.value.cfg, cfg);
    }
  }

  lemma {:induction false} AppliedConfig(g: Setting, a: Applied, spec: KodeSpec, changes: set<R.Part>, order: seq<R.Part>)
    ensures var o := ApplyIn(g, a, spec, changes, order); o.Ok? ==> o.value.cfg == a.cfg.(credentials := o.value.cfg.credentials)
    decreases |order|
  {
    if order != [] {
      var o := EnsureIn(g, a, spec, order[0]);
      assert o.Ok? ==> o.value.cfg == a.cfg.(credentials := o.value.cfg.credentials) by {
        hide D.DesiredSet, D.EnsuredSet, D.EnsuredSecret, D.EnsuredClaim, D.SecretName, D.ClaimName, D.DesiredService, V.WantsClaim;
      }
      hide EnsureIn;
      AppliedConfig(g, a, spec, changes, order[1..]);
      if o.Ok? {
        AppliedConfig(g, o.value, spec, changes, order[1..]);
      }
    }
  }

  /** For one: with nothing stale, a stateful set that lacks ready replicas makes no difference. */
  lemma UpdatingSkipsReadiness(g: Setting, y: Sys)
    requires Quiet(g) && y.w.kode.Some? && UpdatingCopy(g, y.w.kode.value)
    requires Detectable(g, y.w.children, y.w.kode.value.spec, A.ConfigOf(g, y.w.kode.value.spec))
    requires forall p :: !V.Stale(g, y.w.children, y.w.kode.value.spec, A.ConfigOf(g, y.w.kode.value.spec), p)
    requires y.w.children.stateful.Some? && y.w.children.stateful.value.readyReplicas != y.w.children.stateful.value.replicas
    ensures var v := Reconcile(g, y).y.w;
            && v.kode.Some? && v.kode.value.status.phase == Active && C.Is(v.kode.value.status.conditions, Ready, True)
            && !A.ReadyNow(g, v.children, y.w.kode.value.spec, A.ConfigOf(g, y.w.kode.value.spec))
  {
    var spec := y.w.kode.value.spec;
    var cfg := A.ConfigOf(g, spec);
    assert !A.ReadyNow(g, y.w.children, spec, cfg) by {
      hide Quiet, D.SecretHasFields, D.ServiceHasPort, D.PodsReady, D.InitConfig, T.Visible, V.Stale, Detectable;
    }
    hide Quiet, Reconcile, Detectable, A.ReadyNow, T.Visible, D.InitConfig, C.Get, A.ConfigOf, V.Stale, UpdateSucceeds;
    assert StaleParts(g, y.w.children, spec, cfg) == {};
    UpdatingGoesActiveExactly(g, y);
  }
}

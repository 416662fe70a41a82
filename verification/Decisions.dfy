/** Every change of phase, exactly, in every run: whatever the others do between the calls and whichever calls
    fail, a handler's new phase is stored if and only if what the source asks for it was found, each thing at the
    call that looked for it, and the calls that store got through. */
module Decisions {
  import opened KodeTypes
  import opened Cluster
  import opened Invariants
  import opened Handlers
  import opened Safety
  import opened HandlerSafety
  import opened ReconcileSafety
  import opened Runs
  import opened HandlerRuns
  import A = Agreement
  import D = Desired
  import R = Resources
  import T = Templates

  // ---- what a handler can find out ----

  /** The template is there, and the calls that fetch it and note its runtime class get through. */
  ghost predicate Fetches(g: Setting, y: Sys, k: Kode) {
    && g.script(y.t).ok && T.Visible(g.store, k.spec.templateRef).Ok?
    && (T.IsContainerKind(k.spec.templateRef.kind) ==> g.script(y.t + 1).ok)
  }

  lemma FetchesExactly(g: Setting, y: Sys, k: Kode)
    ensures var f := FetchTemplates(g, y, k);
            && (f.out.Ok? <==> Fetches(g, y, k))
            && (f.out.Ok? ==> T.Visible(g.store, k.spec.templateRef).Ok? && f.out == Ok(A.TemplateOf(g, k.spec)))
            && f.k.spec == k.spec && f.k.generation == k.generation && f.k.status.observedGeneration == k.status.observedGeneration
  {
    hide Others, T.Visible, T.IsContainerKind;
  }

  /** The template is fetched and every check finds its part ready at its own call. */
  ghost predicate SaysYes(g: Setting, y: Sys, k: Kode) {
    Fetches(g, y, k) && A.AllAnswered(g, FetchTemplates(g, y, k).y, k.spec, A.ConfigOf(g, k.spec), R.CHECKS)
  }

  /** The template is fetched, and one check finds its part not ready at its own call, all before it saying yes. */
  ghost predicate SaysNo(g: Setting, y: Sys, k: Kode) {
    Fetches(g, y, k) && A.Denied(g, FetchTemplates(g, y, k).y, k.spec, A.ConfigOf(g, k.spec), R.CHECKS)
  }

  /** The number of the call after the last check. */
  ghost function AfterChecks(g: Setting, y: Sys, k: Kode): nat
    requires Fetches(g, y, k)
  {
    R.CheckResourcesReady(g, FetchTemplates(g, y, k).y, k.spec, A.ConfigOf(g, k.spec)).y.t
  }

  /** The handler's copy is stored by call number n and its new phase by the next. */
  predicate TwoUp(g: Setting, n: nat) { g.script(n).ok && g.script(n + 1).ok }

  lemma ChecksSay(g: Setting, y: Sys, k: Kode)
    requires Fetches(g, y, k)
    ensures var r := R.CheckResourcesReady(g, FetchTemplates(g, y, k).y, k.spec, A.ConfigOf(g, k.spec));
            && (r.out == Ok(true) <==> SaysYes(g, y, k)) && (r.out == Ok(false) <==> SaysNo(g, y, k))
            && !(SaysYes(g, y, k) && SaysNo(g, y, k))
  {
    hide FetchTemplates, R.RunChecks, Fetches, A.AllAnswered, A.Denied, A.ConfigOf;
    FetchesExactly(g, y, k);
    var z := FetchTemplates(g, y, k).y;
    A.ChecksAnswer(g, z, k.spec, A.ConfigOf(g, k.spec), R.CHECKS);
    A.ChecksDeny(g, z, k.spec, A.ConfigOf(g, k.spec), R.CHECKS);
  }

  // ---- from what a handler returns to what is stored ----

  /** A status of this phase is stored from this place of the log on. */
  ghost predicate Stores(log: seq<Status>, from: nat, p: Phase) { exists i :: from <= i < |log| && log[i].phase == p }

  lemma AdvanceStores(g: Setting, s0: KodeSpec, generation: int, retries: int, o: Out, past: seq<Status>, ph: Phase, p: Phase)
    requires Kept(g, s0, generation, retries, o, past, ph) && p != ph
    ensures Stores(Advance(g, ph, o).y.log, |past|, p) <==> o.err.None? && o.phase == p && Up(g, o.y)
  {
    hide Holds, Inv, Reported, Awake, HasAll, UpdateStatus, Up;
    if o.err.None? && o.phase != ph {
      var s := WithPhase(o.k, o.phase).status;
      LogGrows(g, s0, o.y, o.k, past, ph, s);
      var log := Advance(g, ph, o).y.log;
      if Up(g, o.y) {
        assert log[|o.y.log|] == s;
      }
    }
  }

  /** With its copy saved a handler asks for its phase exactly if both calls get through. */
  lemma SavedExactly(g: Setting, y: Sys, k: Kode, phase: Phase, result: Result)
    ensures var o := SaveAndReturn(g, y, k, phase, result);
            && (o.err.None? && Up(g, o.y) <==> TwoUp(g, y.t)) && (o.err.None? ==> o.phase == phase)
  {
    StoredWhenUp(g, y, k.status);
    ErrorsErr(g);
    hide UpdateStatus, HandleReconcileError;
  }

  lemma StateIsAdvance(g: Setting, y: Sys, k: Kode)
    requires k.status.phase != Uninitialised
    ensures HandleState(g, y, k) == Advance(g, k.status.phase, Handle(g, y, k))
  {
    hide Handle, Advance;
  }

  // ---- Pending and Configuring ----

  lemma PendingDecides(g: Setting, y: Sys, k: Kode)
    ensures var o := HandlePending(g, y, k);
            o.err.None? && o.phase == Configuring && Up(g, o.y) <==>
              (forall i :: 0 <= i < |k.spec.initPlugins| ==> k.spec.initPlugins[i].image != "") && TwoUp(g, y.t)
  {
    var m := Mark3(k, False, PendingConfiguration, False, PendingConfiguration, True, ConfiguringResources, y.t);
    SavedExactly(g, y, m, Configuring, REQUEUE);
    ErrorsErr(g);
    hide SaveAndReturn, HandleReconcileError, Mark3, Up, TwoUp;
  }

  /** Fetch, detect, apply and validate succeed one after the other, and the two calls that store get through. */
  ghost predicate Configures(g: Setting, y: Sys, k: Kode) {
    && Fetches(g, y, k)
    && var cfg := A.ConfigOf(g, k.spec);
    && var d := R.DetectChanges(g, FetchTemplates(g, y, k).y, k.spec, cfg);
    && d.out.Ok?
    && var a := R.ApplyConfiguration(g, d.y, k.spec, cfg, d.out.value);
    && a.out.Ok?
    && var v := R.ValidateConfiguration(g, a.y, k.spec, a.out.value);
    && v.err.None? && TwoUp(g, v.y.t)
  }

  lemma ConfiguringDecides(g: Setting, y: Sys, k: Kode)
    ensures var o := HandleConfiguring(g, y, k);
            o.err.None? && o.phase == Provisioning && Up(g, o.y) <==> Configures(g, y, k)
  {
    hide FetchTemplates, R.DetectChanges, R.ApplyConfiguration, R.ValidateConfiguration, SaveAndReturn, HandleReconcileError, Mark3, Up, TwoUp,
      Fetches, D.InitConfig, T.Visible;
    FetchesExactly(g, y, k);
    ErrorsErr(g);
    var f := FetchTemplates(g, y, k);
    if Fetches(g, y, k) {
      var cfg := A.ConfigOf(g, k.spec);
      var d := R.DetectChanges(g, f.y, k.spec, cfg);
      if d.out.Ok? {
        var a := R.ApplyConfiguration(g, d.y, k.spec, cfg, d.out.value);
        if a.out.Ok? {
          var v := R.ValidateConfiguration(g, a.y, k.spec, a.out.value);
          var m := Mark3(f.k, False, ConfiguringResources, False, ConfiguringResources, True, ConfiguringResources, v.y.t);
          SavedExactly(g, v.y, m, Provisioning, REQUEUE);
        }
      }
    }
  }

  // ---- Active ----

  lemma StayActiveStays(g: Setting, y: Sys, k: Kode)
    ensures var o := StayActive(g, y, k); o.err.None? ==> o.phase == Active
  {
    var m := k.(status := RefreshAll(k.status, y.t).s);
    SavedExactly(g, y, m, Active, Result(false, g.longInterval));
    ErrorsErr(g);
    hide SaveAndReturn, HandleReconcileError, RefreshAll;
  }

  lemma ActiveDecides(g: Setting, y: Sys, k: Kode)
    requires k.generation == k.status.observedGeneration
    ensures var o := HandleActive(g, y, k);
            o.err.None? && o.phase == Updating && Up(g, o.y) <==> SaysNo(g, y, k) && TwoUp(g, AfterChecks(g, y, k))
  {
    hide FetchTemplates, R.CheckResourcesReady, UpdateStatus, SaveAndReturn, StayActive, HandleReconcileError, Mark3, Up, TwoUp, Fetches,
      D.InitConfig, T.Visible, SaysYes, SaysNo, Mark2;
    FetchesExactly(g, y, k);
    ErrorsErr(g);
    NoNeedsFetch(g, y, k);
    var f := FetchTemplates(g, y, k);
    if Fetches(g, y, k) {
      ChecksSay(g, y, k);
      var r := R.CheckResourcesReady(g, f.y, k.spec, A.ConfigOf(g, k.spec));
      var m := Mark3(f.k, False, ResourcesNotReady, False, ResourcesNotReady, True, ResourcesNotReady, r.y.t);
      SavedExactly(g, r.y, m, Updating, Result(false, g.interval));
      var n := f.k.(status := f.k.status.(kodePort := f.out.value.spec.port));
      StayActiveStays(g, r.y, f.k);
      StayActiveStays(g, UpdateStatus(g, r.y, n.status).y, n);
    }
  }

  lemma NoNeedsFetch(g: Setting, y: Sys, k: Kode)
    ensures SaysNo(g, y, k) || SaysYes(g, y, k) ==> Fetches(g, y, k)
  {
    hide Fetches, A.AllAnswered, A.Denied;
  }

  // ---- Updating ----

  /** Detection succeeds, and either finds nothing, or what it finds is applied, is valid and is found ready, each
      at its own calls; and the two calls that store get through. */
  ghost predicate Updates(g: Setting, y: Sys, k: Kode) {
    && Fetches(g, y, k)
    && var cfg := A.ConfigOf(g, k.spec);
    && var d := R.DetectChanges(g, FetchTemplates(g, y, k).y, k.spec, cfg);
    && d.out.Ok?
    && if d.out.value == {} then TwoUp(g, d.y.t)
       else
         && var a := R.ApplyConfiguration(g, d.y, k.spec, cfg, d.out.value);
         && a.out.Ok?
         && var v := R.ValidateConfiguration(g, a.y, k.spec, a.out.value);
         && v.err.None? && A.AllAnswered(g, v.y, k.spec, a.out.value, R.CHECKS)
         && TwoUp(g, R.CheckResourcesReady(g, v.y, k.spec, a.out.value).y.t)
  }

  lemma FinishDecides(g: Setting, y: Sys, k: Kode, port: int, ready: bool)
    ensures var o := FinishUpdate(g, y, k, port, ready);
            o.err.None? && o.phase == Active && Up(g, o.y) <==> ready && TwoUp(g, y.t)
  {
    hide SaveAndReturn, Mark2, Mark3, Up, TwoUp;
    var m := k.(status := k.status.(observedGeneration := k.generation, kodePort := port));
    SavedExactly(g, y, Mark2(k, True, UpdateInProgress, False, UpdateInProgress, y.t), Updating, Result(false, g.interval));
    SavedExactly(g, y, Mark3(m, True, UpdateComplete, True, ServiceAvailable, False, UpdateComplete, y.t), Active, NO_REQUEUE);
  }

  lemma UpdatingDecides(g: Setting, y: Sys, k: Kode)
    ensures var o := HandleUpdating(g, y, k);
            o.err.None? && o.phase == Active && Up(g, o.y) <==> Updates(g, y, k)
  {
    hide FetchTemplates, R.DetectChanges, R.ApplyConfiguration, R.ValidateConfiguration, R.RunChecks, FinishUpdate, SaveAndReturn,
      HandleReconcileError, Mark2, Up, TwoUp, Fetches, D.InitConfig, T.Visible, A.AllAnswered;
    FetchesExactly(g, y, k);
    ErrorsErr(g);
    var f := FetchTemplates(g, y, k);
    if Fetches(g, y, k) {
      var cfg := A.ConfigOf(g, k.spec);
      var d := R.DetectChanges(g, f.y, k.spec, cfg);
      if d.out.Ok? {
        var m := f.k.(status := f.k.status.(observedGeneration := f.k.generation));
        SavedExactly(g, d.y, Mark2(m, False, NoChanges, True, ResourcesHealthy, d.y.t), Active, REQUEUE);
        var a := R.ApplyConfiguration(g, d.y, k.spec, cfg, d.out.value);
        if a.out.Ok? {
          var v := R.ValidateConfiguration(g, a.y, k.spec, a.out.value);
          A.ChecksAnswer(g, v.y, k.spec, a.out.value, R.CHECKS);
          var r := R.CheckResourcesReady(g, v.y, k.spec, a.out.value);
          if r.out.Ok? { FinishDecides(g, r.y, f.k, f.out.value.spec.port, r.out.value); }
        }
      }
    }
  }

  // ---- recovery ----

  /** The cluster and the copy once a recovery attempt has been stored. */
  function Attempted(g: Setting, y: Sys, k: Kode): Entry {
    var m := Attempting(k, y.t);
    Entry(UpdateStatus(g, y, m.status).y, m)
  }

  lemma RecoveryDecides(g: Setting, y: Sys, k: Kode)
    requires k.status.retryCount < MAX_RETRIES && k.generation == k.status.observedGeneration
    ensures var o := HandleFailed(g, y, k);
            var a := Attempted(g, y, k);
            && o.err.None?
            && (o.phase == Provisioning <==> g.script(y.t).ok && SaysNo(g, a.y, a.k))
            && (o.phase == Pending <==> g.script(y.t).ok && !SaysNo(g, a.y, a.k))
            && (g.script(y.t).ok ==> o.y == DetermineRecoveryPhase(g, a.y, a.k).y)
  {
    hide FetchTemplates, R.CheckResourcesReady, UpdateStatus, Mark3, Fetches, D.InitConfig, T.Visible, SaysYes, SaysNo, SaveOrRequeue;
    var m := Attempting(k, y.t);
    Mark3Only(k, False, AttemptingRecovery, False, AttemptingRecovery, True, AttemptingRecovery, y.t);
    StoredWhenUp(g, y, m.status);
    var u := UpdateStatus(g, y, m.status);
    FetchesExactly(g, u.y, m);
    NoNeedsFetch(g, u.y, m);
    if Fetches(g, u.y, m) { ChecksSay(g, u.y, m); }
  }

  // ---- Unknown ----

  /** The cluster and the copy from which the phase of an Unknown Kode is determined. */
  function Marked(g: Setting, y: Sys, k: Kode): Entry {
    var m := Mark3(k, Indeterminate, StateUnknown, Indeterminate, StateUnknown, Indeterminate, StateUnknown, y.t);
    Entry(UpdateStatus(g, y, m.status).y, m)
  }

  /** Active or Provisioning by what the checks say, Pending without a template, Configuring if a check is refused. */
  lemma StateIsDetermined(g: Setting, y: Sys, k: Kode)
    requires k.generation == k.status.observedGeneration
    ensures var p := DetermineResourceState(g, y, k).phase;
            && (p == Active <==> SaysYes(g, y, k)) && (p == Provisioning <==> SaysNo(g, y, k))
            && (p == Pending <==> !Fetches(g, y, k))
            && (p == Configuring <==> Fetches(g, y, k) && !SaysYes(g, y, k) && !SaysNo(g, y, k))
  {
    hide FetchTemplates, R.CheckResourcesReady, Fetches, D.InitConfig, T.Visible, SaysYes, SaysNo;
    FetchesExactly(g, y, k);
    NoNeedsFetch(g, y, k);
    if Fetches(g, y, k) { ChecksSay(g, y, k); }
  }

  lemma UnknownWrites(g: Setting, s0: KodeSpec, y: Sys, k: Kode)
    requires Holds(g, s0, y, k, y.log, Unknown)
    ensures var a := Marked(g, y, k);
            var d := DetermineResourceState(g, a.y, a.k);
            var o := HandleUnknown(g, y, k);
            && a.k.generation == a.k.status.observedGeneration && d.phase != Unknown
            && (forall i :: |y.log| <= i < |o.y.log| ==> o.y.log[i].phase == Unknown || o.y.log[i].phase == d.phase)
            && (o.phase != Unknown ==>
                  o.phase == d.phase && g.script(y.t).ok && g.script(d.y.t).ok && exists i :: |y.log| <= i < |o.y.log| && o.y.log[i].phase == d.phase)
            && (o.phase == Unknown ==> !(g.script(y.t).ok && g.script(d.y.t).ok) && forall i :: |y.log| <= i < |o.y.log| ==> o.y.log[i].phase == Unknown)
            && y.log <= o.y.log
  {
    hide Holds, Mark3, UpdateStatus, DetermineResourceState, Inv;
    var m := Mark3(k, Indeterminate, StateUnknown, Indeterminate, StateUnknown, Indeterminate, StateUnknown, y.t);
    Mark3Holds(g, s0, y, k, Indeterminate, StateUnknown, Indeterminate, StateUnknown, Indeterminate, StateUnknown, y.t, y.log, Unknown);
    SaveHolds(g, s0, y, m, y.log, Unknown);
    var u := UpdateStatus(g, y, m.status);
    StoredWhenUp(g, y, m.status);
    SameObserved(g, s0, u.y, m, y.log, Unknown);
    DeterminedHolds(g, s0, u.y, m, y.log);
    var d := DetermineResourceState(g, u.y, m);
    var s := WithPhase(d.k, d.phase).status;
    LogGrows(g, s0, d.y, d.k, y.log, Unknown, s);
    StoredWhenUp(g, d.y, s);
    LogHolds(g, s0, u.y, m, y.log);
    LogHolds(g, s0, d.y, d.k, y.log);
    var o := HandleUnknown(g, y, k);
    if o.phase != Unknown {
      assert o.y.log == d.y.log + [s] && o.y.log[|d.y.log|] == s;
    }
  }

  lemma LogHolds(g: Setting, s0: KodeSpec, y: Sys, k: Kode, past: seq<Status>)
    requires Holds(g, s0, y, k, past, Unknown)
    ensures past <= y.log && forall i :: |past| <= i < |y.log| ==> y.log[i].phase == Unknown
  {
    hide Inv, CopyOk;
  }

  /** An Unknown Kode is stored in the phase that is determined, exactly if the first write and the write of that
      phase get through. */
  lemma UnknownDecides(g: Setting, s0: KodeSpec, y: Sys, k: Kode, p: Phase)
    requires Holds(g, s0, y, k, y.log, Unknown) && p != Unknown
    ensures var a := Marked(g, y, k);
            var d := DetermineResourceState(g, a.y, a.k);
            Stores(HandleState(g, y, k).y.log, |y.log|, p) <==> g.script(y.t).ok && g.script(d.y.t).ok && d.phase == p
  {
    hide Holds, HandleUnknown, HandleState, Marked, DetermineResourceState, UpdateStatus, Inv, UnknownLog, Allowed, Up;
    SameObserved(g, s0, y, k, y.log, Unknown);
    UnknownWrites(g, s0, y, k);
    StateIsAdvance(g, y, k);
    HandlesUnknown(g, y, k);
    UnknownKept(g, s0, y, k);
    var o := HandleUnknown(g, y, k);
    var log := HandleState(g, y, k).y.log;
    if o.phase != Unknown {
      var s := WithPhase(o.k, o.phase).status;
      LogGrows(g, s0, o.y, o.k, o.y.log, o.phase, s);
      assert log == o.y.log || log == o.y.log + [s];
      var i :| |y.log| <= i < |o.y.log| && o.y.log[i].phase == o.phase;
      assert log[i].phase == o.phase;
    } else {
      assert log == o.y.log;
    }
  }

  // ---- over runs ----

  /** What the handler that is called finds decides, exactly, whether its next phase is stored. `new` is what is
      stored after the handler was called. */
  ghost predicate Decides(g: Setting, e: Entry, log: seq<Status>) {
    var y, k, from := e.y, e.k, |e.y.log|;
    match k.status.phase
    case Pending =>
      Stores(log, from, Configuring) <==> (forall i :: 0 <= i < |k.spec.initPlugins| ==> k.spec.initPlugins[i].image != "") && TwoUp(g, y.t)
    case Configuring => Stores(log, from, Provisioning) <==> Configures(g, y, k)
    case Provisioning => Stores(log, from, Active) <==> SaysYes(g, y, k) && TwoUp(g, AfterChecks(g, y, k))
    case Active => Stores(log, from, Updating) <==> SaysNo(g, y, k) && TwoUp(g, AfterChecks(g, y, k))
    case Updating => Stores(log, from, Active) <==> Updates(g, y, k)
    case Failed =>
      k.status.retryCount < MAX_RETRIES ==>
        var a := Attempted(g, y, k);
        var last := g.script(DetermineRecoveryPhase(g, a.y, a.k).y.t).ok;
        && (Stores(log, from, Provisioning) <==> g.script(y.t).ok && SaysNo(g, a.y, a.k) && last)
        && (Stores(log, from, Pending) <==> g.script(y.t).ok && !SaysNo(g, a.y, a.k) && last)
    case Unknown =>
      var a := Marked(g, y, k);
      var last := g.script(y.t).ok && g.script(DetermineResourceState(g, a.y, a.k).y.t).ok;
      && (Stores(log, from, Active) <==> last && SaysYes(g, a.y, a.k))
      && (Stores(log, from, Provisioning) <==> last && SaysNo(g, a.y, a.k))
      && (Stores(log, from, Pending) <==> last && !Fetches(g, a.y, a.k))
      && (Stores(log, from, Configuring) <==> last && Fetches(g, a.y, a.k) && !SaysYes(g, a.y, a.k) && !SaysNo(g, a.y, a.k))
    case _ => true
  }

  lemma HandlerDecides(g: Setting, s0: KodeSpec, y: Sys, k: Kode)
    requires Holds(g, s0, y, k, y.log, k.status.phase)
    ensures Decides(g, Entry(y, k), HandleState(g, y, k).y.log)
  {
    hide Holds, Kept, Stores, Up, HandlePending, HandleConfiguring, HandleProvisioning, HandleActive, HandleUpdating, HandleFailed, HandleDeleting,
      HandleUnknown, DetermineResourceState, Marked, SaysYes, SaysNo, Configures, Updates, TwoUp, Fetches, DetermineRecoveryPhase,
      Attempted, Advance, HandleState, R.CheckResourcesReady,
      FetchTemplates, T.Visible, D.InitConfig;
    SameObserved(g, s0, y, k, y.log, k.status.phase);
    CountIs(g, s0, y, k);
    var o := Handle(g, y, k);
    var past := y.log;
    StateIsAdvance(g, y, k);
    match k.status.phase
    case Pending =>
      PendingKept(g, s0, y, k, past);
      PendingDecides(g, y, k);
      AdvanceStores(g, s0, k.generation, k.status.retryCount, o, past, Pending, Configuring);
    case Configuring =>
      ConfiguringKept(g, s0, y, k, past);
      ConfiguringDecides(g, y, k);
      AdvanceStores(g, s0, k.generation, k.status.retryCount, o, past, Configuring, Provisioning);
    case Provisioning =>
      ProvisioningKept(g, s0, y, k, past);
      ProvisioningDecides(g, y, k);
      AdvanceStores(g, s0, k.generation, k.status.retryCount, o, past, Provisioning, Active);
    case Active =>
      ActiveKept(g, s0, y, k, past);
      ActiveDecides(g, y, k);
      AdvanceStores(g, s0, k.generation, k.status.retryCount, o, past, Active, Updating);
    case Updating =>
      UpdatingKept(g, s0, y, k, past);
      UpdatingDecides(g, y, k);
      AdvanceStores(g, s0, k.generation, k.status.retryCount, o, past, Updating, Active);
    case Failed =>
      FailedKept(g, s0, y, k);
      if k.status.retryCount < MAX_RETRIES {
        RecoveryDecides(g, y, k);
        AdvanceStores(g, s0, k.generation, NextRetry(k.status.retryCount), o, past, Failed, Provisioning);
        AdvanceStores(g, s0, k.generation, NextRetry(k.status.retryCount), o, past, Failed, Pending);
        UpIs(g, o.y);
      }
    case Unknown =>
      UnknownDecides(g, s0, y, k, Active);
      UnknownDecides(g, s0, y, k, Provisioning);
      UnknownDecides(g, s0, y, k, Pending);
      UnknownDecides(g, s0, y, k, Configuring);
      UnknownWrites(g, s0, y, k);
      StateIsDetermined(g, Marked(g, y, k).y, Marked(g, y, k).k);
    case _ =>
  }

  lemma UpIs(g: Setting, y: Sys)
    ensures Up(g, y) <==> g.script(y.t).ok
  {
  }

  lemma CountIs(g: Setting, s0: KodeSpec, y: Sys, k: Kode)
    requires Holds(g, s0, y, k, y.log, k.status.phase)
    ensures k.status.phase != Uninitialised
  {
    hide Inv, Published, SameNames, StatusOk;
  }

  lemma ProvisioningDecides(g: Setting, y: Sys, k: Kode)
    ensures var o := HandleProvisioning(g, y, k);
            o.err.None? && o.phase == Active && Up(g, o.y) <==> SaysYes(g, y, k) && TwoUp(g, AfterChecks(g, y, k))
  {
    hide FetchTemplates, R.CheckResourcesReady, SaveAndReturn, HandleReconcileError, Mark3, Up, TwoUp, Fetches, D.InitConfig, T.Visible, SaysYes, SaysNo;
    FetchesExactly(g, y, k);
    ErrorsErr(g);
    NoNeedsFetch(g, y, k);
    var f := FetchTemplates(g, y, k);
    if Fetches(g, y, k) {
      ChecksSay(g, y, k);
      var r := R.CheckResourcesReady(g, f.y, k.spec, A.ConfigOf(g, k.spec));
      var a := Mark3(f.k, False, StillProvisioning, False, StillProvisioning, True, StillProvisioning, r.y.t);
      var b := Mark3(f.k, True, ResourcesReady, True, ResourcesReady, False, Provisioned, r.y.t);
      SavedExactly(g, r.y, a, Provisioning, Result(false, g.interval));
      SavedExactly(g, r.y, b.(status := b.status.(kodePort := f.out.value.spec.port)), Active, NO_REQUEUE);
    }
  }

  /** The theorem: in every run, a reconcile that calls a handler stores that handler's next phase if and only if
      Decides says so. */
  lemma PhasesChangeExactly(g: Setting, y: Sys, events: seq<Event>)
    requires Start(g, y)
    ensures var r := Run(g, y, events);
            var e := HandlerEntry(g, r);
            e.Some? ==> Decides(g, e.value, Reconcile(g, r).y.log)
  {
    hide HandlerEntry, Run, Start, Inv, Later, Enter, Holds, Reconcile, HandleState, Decides;
    StartIsThere(g, y);
    var r := Run(g, y, events);
    Reachable(g, y, events);
    EntryHolds(g, FirstSpec(y), r);
    EntryIs(g, r);
    var e := HandlerEntry(g, r);
    if e.Some? {
      HandlerDecides(g, FirstSpec(y), e.value.y, e.value.k);
    }
  }
}

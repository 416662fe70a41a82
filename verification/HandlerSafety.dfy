/** What each phase handler does to the invariants, which phases it may ask for, and what it leaves
    when it fails: for every interleaving and every failure point. */
module HandlerSafety {
  import opened KodeTypes
  import opened Cluster
  import opened Invariants
  import opened Handlers
  import opened Safety
  import C = Conditions
  import D = Desired
  import R = Resources
  import T = Templates

  /** The transition table: the phases a handler may return without error. Failed is never entered and
      Updating is never left but for Active. */
  predicate Allowed(a: Phase, b: Phase) {
    match a
    case Uninitialised => false
    case Pending => b == Configuring
    case Configuring => b == Provisioning
    case Provisioning => b == Provisioning || b == Active
    case Active => b == Active || b == Updating
    case Updating => b == Updating || b == Active
    case Deleting => b == Deleting
    case Failed => b == Failed || b == Pending || b == Provisioning
    case Unknown => b == Unknown || b == Pending || b == Configuring || b == Provisioning || b == Active
  }

  predicate AllFalse(s: Status) {
    C.Is(s.conditions, Ready, False) && C.Is(s.conditions, Available, False) && C.Is(s.conditions, Progressing, False)
  }

  /** A handler's error has been put into its copy, and stored if the last call got through. A nil
      dereference reports nothing. */
  ghost predicate Reported(g: Setting, o: Out) {
    o.err.Some? && o.err.value != NilPointer ==>
      && AllFalse(o.k.status) && o.k.status.lastError == o.err
      && o.y.t > 0
      && (g.script(o.y.t - 1).ok && o.y.w.kode.Some? ==> o.y.w.kode.value.status == o.k.status)
  }

  /** With positive intervals a handler that returns no error and asks for no requeue has asked for
      another phase, or the finalizer is off. */
  ghost predicate Awake(g: Setting, ph: Phase, o: Out) {
    g.interval > 0 && g.longInterval > 0 && o.err.None? && IsEmptyResult(o.result) ==> o.phase != ph || !Live(o.y.w)
  }

  /** What every handler but Unknown's leaves: every status it stored has the phase and generation it
      started with, and the one retry count. */
  ghost predicate Kept(g: Setting, s0: KodeSpec, generation: int, retries: int, o: Out, past: seq<Status>, ph: Phase) {
    && Inv(g, s0, o.y.w)
    && LogIs(o.y.log, past, ph, generation, retries)
    && o.k.status.phase == ph && o.k.generation == generation && o.k.status.retryCount == retries
    && (o.err.None? ==> Allowed(ph, o.phase))
    && (o.err.None? && o.phase != ph ==> Holds(g, s0, o.y, o.k, past, ph) && (Settled(o.phase) ==> HasAll(o.k.status)))
    && Reported(g, o)
    && Awake(g, ph, o)
  }

  lemma FailingHolds(g: Setting, s0: KodeSpec, y: Sys, k: Kode, e: Err, now: nat, past: seq<Status>, ph: Phase)
    requires Holds(g, s0, y, k, past, ph)
    ensures Holds(g, s0, y, Failing(k, e, now), past, ph)
    ensures AllFalse(Failing(k, e, now).status) && Failing(k, e, now).status.lastError == Some(e)
  {
    var m := Mark3(k, False, ReconciliationFailed, False, ReconciliationFailed, False, ReconciliationFailed, now);
    Mark3Holds(g, s0, y, k, False, ReconciliationFailed, False, ReconciliationFailed, False, ReconciliationFailed, now, past, ph);
    Mark3Meaning(k, False, ReconciliationFailed, False, ReconciliationFailed, False, ReconciliationFailed, now);
    hide Mark3, Inv, C.Get, C.Is, C.Has;
    ChangeHolds(g, s0, y, m, Failing(k, e, now), past, ph);
  }

  lemma StoredWhenUp(g: Setting, y: Sys, s: Status)
    ensures var u := UpdateStatus(g, y, s);
            && u.y.t == y.t + 1
            && (u.err.None? <==> Up(g, y))
            && (Up(g, y) && u.y.w.kode.Some? ==> u.y.w.kode.value.status == s)
  {
    hide Others;
  }

  lemma ErrorKept(g: Setting, s0: KodeSpec, y: Sys, k: Kode, e: Err, past: seq<Status>, ph: Phase)
    requires Holds(g, s0, y, k, past, ph)
    ensures Kept(g, s0, k.generation, k.status.retryCount, HandleReconcileError(g, y, k, e), past, ph)
  {
    var m := Failing(k, e, y.t);
    FailingHolds(g, s0, y, k, e, y.t, past, ph);
    SaveHolds(g, s0, y, m, past, ph);
    StoredWhenUp(g, y, m.status);
    hide Inv, CopyOk, AllFalse, UpdateStatus, Allowed, Mark3;
  }

  lemma SaveKept(g: Setting, s0: KodeSpec, y: Sys, k: Kode, next: Phase, result: Result, past: seq<Status>, ph: Phase)
    requires Holds(g, s0, y, k, past, ph)
    requires Allowed(ph, next) && (next != ph && Settled(next) ==> HasAll(k.status))
    requires g.interval > 0 && g.longInterval > 0 && IsEmptyResult(result) ==> next != ph
    ensures Kept(g, s0, k.generation, k.status.retryCount, SaveAndReturn(g, y, k, next, result), past, ph)
  {
    SaveHolds(g, s0, y, k, past, ph);
    var u := UpdateStatus(g, y, k.status);
    if u.err.Some? {
      ErrorKept(g, s0, u.y, k, u.err.value, past, ph);
    }
    hide Inv, CopyOk, AllFalse, UpdateStatus, HandleReconcileError, Mark3, HasAll;
  }

  lemma SaveQuietlyKept(g: Setting, s0: KodeSpec, y: Sys, k: Kode, result: Result, past: seq<Status>, ph: Phase)
    requires Holds(g, s0, y, k, past, ph) && Allowed(ph, ph)
    requires g.interval > 0 && g.longInterval > 0 ==> !IsEmptyResult(result)
    ensures Kept(g, s0, k.generation, k.status.retryCount, SaveOrRequeue(g, y, k, ph, result), past, ph)
  {
    SaveHolds(g, s0, y, k, past, ph);
    hide Inv, CopyOk, AllFalse, UpdateStatus;
  }

  lemma PendingKept(g: Setting, s0: KodeSpec, y: Sys, k: Kode, past: seq<Status>)
    requires Holds(g, s0, y, k, past, Pending)
    ensures Kept(g, s0, k.generation, k.status.retryCount, HandlePending(g, y, k), past, Pending)
  {
    hide Holds, Kept, Mark3, HandleReconcileError, SaveAndReturn, D.KodeValid, HasAll;
    if D.KodeValid(k.spec) {
      Mark3Holds(g, s0, y, k, False, PendingConfiguration, False, PendingConfiguration, True, ConfiguringResources, y.t, past, Pending);
      Mark3Meaning(k, False, PendingConfiguration, False, PendingConfiguration, True, ConfiguringResources, y.t);
      SaveKept(g, s0, y, Mark3(k, False, PendingConfiguration, False, PendingConfiguration, True, ConfiguringResources, y.t),
               Configuring, REQUEUE, past, Pending);
    } else {
      ErrorKept(g, s0, y, k, Invalid, past, Pending);
    }
  }

  lemma ConfiguringKept(g: Setting, s0: KodeSpec, y: Sys, k: Kode, past: seq<Status>)
    requires Holds(g, s0, y, k, past, Configuring)
    ensures Kept(g, s0, k.generation, k.status.retryCount, HandleConfiguring(g, y, k), past, Configuring)
  {
    hide Holds, Kept, Mark3, HandleReconcileError, SaveAndReturn, HasAll, FetchTemplates, R.DetectChanges,
      R.ApplyParts, R.ValidateConfiguration, D.InitConfig, CfgOf, T.Visible;
    var f := FetchTemplates(g, y, k);
    FetchHolds(g, s0, y, k, past, Configuring);
    FetchCopies(g, y, k);
    if f.out.Bad? {
      ErrorKept(g, s0, f.y, f.k, f.out.err, past, Configuring);
      return;
    }
    var cfg := D.InitConfig(g.name, f.k.spec, f.out.value);
    var d := R.DetectChanges(g, f.y, f.k.spec, cfg);
    DetectHolds(g, s0, f.y, f.k.spec, cfg, f.k, past, Configuring);
    if d.out.Bad? {
      ErrorKept(g, s0, d.y, f.k, d.out.err, past, Configuring);
      return;
    }
    var a := R.ApplyConfiguration(g, d.y, f.k.spec, cfg, d.out.value);
    ApplyHolds(g, s0, d.y, cfg, d.out.value, R.ORDER, f.k, past, Configuring);
    if a.out.Bad? {
      ErrorKept(g, s0, a.y, f.k, a.out.err, past, Configuring);
      return;
    }
    var v := R.ValidateConfiguration(g, a.y, f.k.spec, a.out.value);
    ValidateHolds(g, s0, a.y, f.k.spec, a.out.value, f.k, past, Configuring);
    if v.err.Some? {
      ErrorKept(g, s0, v.y, f.k, v.err.value, past, Configuring);
      return;
    }
    Mark3Holds(g, s0, v.y, f.k, False, ConfiguringResources, False, ConfiguringResources, True, ConfiguringResources, v.y.t, past, Configuring);
    Mark3Meaning(f.k, False, ConfiguringResources, False, ConfiguringResources, True, ConfiguringResources, v.y.t);
    SaveKept(g, s0, v.y, Mark3(f.k, False, ConfiguringResources, False, ConfiguringResources, True, ConfiguringResources, v.y.t),
             Provisioning, REQUEUE, past, Configuring);
  }

  lemma PortHolds(g: Setting, s0: KodeSpec, y: Sys, k: Kode, port: int, past: seq<Status>, ph: Phase)
    requires Holds(g, s0, y, k, past, ph)
    requires Some(port) == ThePort(g, k.spec)
    ensures Holds(g, s0, y, k.(status := k.status.(kodePort := port, observedGeneration := k.generation)), past, ph)
  {
    ChangeHolds(g, s0, y, k, k.(status := k.status.(kodePort := port, observedGeneration := k.generation)), past, ph) by {
      hide Inv, ThePort;
    }
  }

  lemma SameObserved(g: Setting, s0: KodeSpec, y: Sys, k: Kode, past: seq<Status>, ph: Phase)
    requires Holds(g, s0, y, k, past, ph)
    ensures k.status.observedGeneration == k.generation && k.status.phase == ph && k.finalizer
    ensures Settled(ph) ==> HasAll(k.status)
    ensures k.deleting <==> ph == Deleting
  {
    hide Inv, HasAll;
  }

  lemma ProvisioningKept(g: Setting, s0: KodeSpec, y: Sys, k: Kode, past: seq<Status>)
    requires Holds(g, s0, y, k, past, Provisioning)
    ensures Kept(g, s0, k.generation, k.status.retryCount, HandleProvisioning(g, y, k), past, Provisioning)
  {
    hide Holds, Kept, Mark3, HandleReconcileError, SaveAndReturn, HasAll, FetchTemplates, R.CheckResourcesReady,
      D.InitConfig, CfgOf, T.Visible;
    var f := FetchTemplates(g, y, k);
    FetchHolds(g, s0, y, k, past, Provisioning);
    FetchCopies(g, y, k);
    if f.out.Bad? {
      ErrorKept(g, s0, f.y, f.k, f.out.err, past, Provisioning);
      return;
    }
    var cfg := D.InitConfig(g.name, f.k.spec, f.out.value);
    var r := R.CheckResourcesReady(g, f.y, f.k.spec, cfg);
    ReadyHolds(g, s0, f.y, f.k.spec, cfg, f.k, past, Provisioning);
    if r.out.Bad? {
      ErrorKept(g, s0, r.y, f.k, r.out.err, past, Provisioning);
    } else if !r.out.value {
      Mark3Holds(g, s0, r.y, f.k, False, StillProvisioning, False, StillProvisioning, True, StillProvisioning, r.y.t, past, Provisioning);
      Mark3Meaning(f.k, False, StillProvisioning, False, StillProvisioning, True, StillProvisioning, r.y.t);
      SaveKept(g, s0, r.y, Mark3(f.k, False, StillProvisioning, False, StillProvisioning, True, StillProvisioning, r.y.t),
               Provisioning, Result(false, g.interval), past, Provisioning);
    } else {
      var m := Mark3(f.k, True, ResourcesReady, True, ResourcesReady, False, Provisioned, r.y.t);
      Mark3Holds(g, s0, r.y, f.k, True, ResourcesReady, True, ResourcesReady, False, Provisioned, r.y.t, past, Provisioning);
      Mark3Meaning(f.k, True, ResourcesReady, True, ResourcesReady, False, Provisioned, r.y.t);
      SameObserved(g, s0, r.y, m, past, Provisioning);
      var n := m.(status := m.status.(kodePort := f.out.value.spec.port));
      assert n == m.(status := m.status.(kodePort := f.out.value.spec.port, observedGeneration := m.generation));
      PortHolds(g, s0, r.y, m, f.out.value.spec.port, past, Provisioning);
      ConditionsDecide(m.status, n.status);
      SaveKept(g, s0, r.y, n, Active, NO_REQUEUE, past, Provisioning);
    }
  }

  lemma ConditionsDecide(s: Status, t: Status)
    requires s.conditions == t.conditions
    ensures HasAll(s) <==> HasAll(t)
  {
  }

  lemma ReadyHolds(g: Setting, s0: KodeSpec, y: Sys, spec: KodeSpec, cfg: D.Config, k: Kode, past: seq<Status>,
                   ph: Phase)
    requires Holds(g, s0, y, k, past, ph)
    ensures Holds(g, s0, R.CheckResourcesReady(g, y, spec, cfg).y, k, past, ph)
    ensures R.CheckResourcesReady(g, y, spec, cfg).out != Bad(NilPointer)
  {
    ChecksHold(g, s0, y, spec, cfg, R.CHECKS, k, past, ph);
    hide Holds, R.RunChecks;
  }

  lemma RefreshMeaning(r: Refreshed, kind: ConditionType, status: ConditionStatus, reason: Reason, now: nat)
    requires C.Has(r.s.conditions, kind) && !r.panicked
    ensures var q := Refresh(r, kind, status, reason, now);
            && !q.panicked
            && q.s == r.s.(conditions := q.s.conditions)
            && C.Is(q.s.conditions, kind, status)
            && (forall o: ConditionType :: o != kind ==> C.Get(q.s.conditions, o) == C.Get(r.s.conditions, o))
  {
    C.SetMeaning(r.s.conditions, Condition(kind, status, reason, now));
    hide C.Set;
  }

  /** With the three conditions present the Active handler dereferences no nil. */
  lemma RefreshAllMeaning(s: Status, now: nat)
    requires HasAll(s)
    ensures var r := RefreshAll(s, now);
            && !r.panicked
            && r.s == s.(conditions := r.s.conditions)
            && HasAll(r.s)
            && C.Is(r.s.conditions, Ready, True) && C.Is(r.s.conditions, Available, True) && C.Is(r.s.conditions, Progressing, False)
  {
    hide C.Get, Refresh;
    RefreshMeaning(Refreshed(s, false, false), Ready, True, ResourcesHealthy, now);
    var r := Refresh(Refreshed(s, false, false), Ready, True, ResourcesHealthy, now);
    RefreshMeaning(r, Available, True, ServiceAvailable, now);
    RefreshMeaning(Refresh(r, Available, True, ServiceAvailable, now), Progressing, False, Stable, now);
  }

  lemma ConditionsHold(g: Setting, s0: KodeSpec, y: Sys, k: Kode, s: Status, past: seq<Status>, ph: Phase)
    requires Holds(g, s0, y, k, past, ph) && HasAll(s) && s == k.status.(conditions := s.conditions)
    ensures Holds(g, s0, y, k.(status := s), past, ph)
  {
    ChangeHolds(g, s0, y, k, k.(status := s), past, ph) by {
      hide Inv, C.Get;
    }
  }

  lemma UnchangedKept(g: Setting, s0: KodeSpec, y: Sys, k: Kode, result: Result, past: seq<Status>, ph: Phase)
    requires Holds(g, s0, y, k, past, ph) && Allowed(ph, ph)
    requires g.interval > 0 && g.longInterval > 0 ==> !IsEmptyResult(result)
    ensures Kept(g, s0, k.generation, k.status.retryCount, Out(y, k, ph, result, None), past, ph)
  {
    hide Inv, CopyOk, AllFalse;
  }

  lemma StayActiveKept(g: Setting, s0: KodeSpec, y: Sys, k: Kode, past: seq<Status>)
    requires Holds(g, s0, y, k, past, Active)
    ensures Kept(g, s0, k.generation, k.status.retryCount, StayActive(g, y, k), past, Active)
  {
    SameObserved(g, s0, y, k, past, Active);
    RefreshAllMeaning(k.status, y.t);
    hide RefreshAll, HasAll;
    var r := RefreshAll(k.status, y.t);
    var m := k.(status := r.s);
    ConditionsHold(g, s0, y, k, r.s, past, Active);
    hide Holds, Kept, SaveAndReturn, C.Is;
    SaveKept(g, s0, y, m, Active, Result(false, g.longInterval), past, Active);
    UnchangedKept(g, s0, y, m, Result(false, g.longInterval), past, Active);
  }

  lemma ActiveKept(g: Setting, s0: KodeSpec, y: Sys, k: Kode, past: seq<Status>)
    requires Holds(g, s0, y, k, past, Active)
    ensures Kept(g, s0, k.generation, k.status.retryCount, HandleActive(g, y, k), past, Active)
  {
    hide Holds, Kept, Mark3, Mark2, HandleReconcileError, SaveAndReturn, HasAll, FetchTemplates, R.CheckResourcesReady,
      D.InitConfig, CfgOf, T.Visible, StayActive, UpdateStatus;
    SameObserved(g, s0, y, k, past, Active);
    var f := FetchTemplates(g, y, k);
    FetchHolds(g, s0, y, k, past, Active);
    FetchCopies(g, y, k);
    if f.out.Bad? {
      ErrorKept(g, s0, f.y, f.k, f.out.err, past, Active);
      return;
    }
    var cfg := D.InitConfig(g.name, f.k.spec, f.out.value);
    var r := R.CheckResourcesReady(g, f.y, f.k.spec, cfg);
    ReadyHolds(g, s0, f.y, f.k.spec, cfg, f.k, past, Active);
    if r.out.Bad? {
      ErrorKept(g, s0, r.y, f.k, r.out.err, past, Active);
    } else if !r.out.value {
      Mark3Holds(g, s0, r.y, f.k, False, ResourcesNotReady, False, ResourcesNotReady, True, ResourcesNotReady, r.y.t, past, Active);
      Mark3Meaning(f.k, False, ResourcesNotReady, False, ResourcesNotReady, True, ResourcesNotReady, r.y.t);
      SaveKept(g, s0, r.y, Mark3(f.k, False, ResourcesNotReady, False, ResourcesNotReady, True, ResourcesNotReady, r.y.t),
               Updating, Result(false, g.interval), past, Active);
    } else {
      var port := f.out.value.spec.port;
      var m := f.k.(status := f.k.status.(kodePort := port));
      SameObserved(g, s0, r.y, f.k, past, Active);
      assert m == f.k.(status := f.k.status.(kodePort := port, observedGeneration := f.k.generation));
      PortHolds(g, s0, r.y, f.k, port, past, Active);
      var u := UpdateStatus(g, r.y, m.status);
      SaveHolds(g, s0, r.y, m, past, Active);
      if u.err.Some? {
        ErrorKept(g, s0, u.y, m, u.err.value, past, Active);
      } else {
        StayActiveKept(g, s0, u.y, m, past);
      }
      StayActiveKept(g, s0, r.y, f.k, past);
    }
  }

  lemma FinishUpdateKept(g: Setting, s0: KodeSpec, y: Sys, k: Kode, port: int, ready: bool, past: seq<Status>)
    requires Holds(g, s0, y, k, past, Updating)
    requires Some(port) == ThePort(g, k.spec)
    ensures Kept(g, s0, k.generation, k.status.retryCount, FinishUpdate(g, y, k, port, ready), past, Updating)
  {
    hide Holds, Kept, Mark3, Mark2, SaveAndReturn, HasAll, T.Visible;
    if !ready {
      Mark2Holds(g, s0, y, k, True, UpdateInProgress, False, UpdateInProgress, y.t, past, Updating);
      Mark2Meaning(k, True, UpdateInProgress, False, UpdateInProgress, y.t);
      SaveKept(g, s0, y, Mark2(k, True, UpdateInProgress, False, UpdateInProgress, y.t), Updating, Result(false, g.interval), past, Updating);
    } else {
      var m := k.(status := k.status.(observedGeneration := k.generation, kodePort := port));
      PortHolds(g, s0, y, k, port, past, Updating);
      Mark3Holds(g, s0, y, m, True, UpdateComplete, True, ServiceAvailable, False, UpdateComplete, y.t, past, Updating);
      Mark3Meaning(m, True, UpdateComplete, True, ServiceAvailable, False, UpdateComplete, y.t);
      SaveKept(g, s0, y, Mark3(m, True, UpdateComplete, True, ServiceAvailable, False, UpdateComplete, y.t), Active, NO_REQUEUE, past, Updating);
    }
  }

  lemma UpdatingKept(g: Setting, s0: KodeSpec, y: Sys, k: Kode, past: seq<Status>)
    requires Holds(g, s0, y, k, past, Updating)
    ensures Kept(g, s0, k.generation, k.status.retryCount, HandleUpdating(g, y, k), past, Updating)
  {
    hide Holds, Kept, Mark3, Mark2, HandleReconcileError, SaveAndReturn, HasAll, FetchTemplates, R.DetectChanges,
      R.ApplyParts, R.ValidateConfiguration, R.CheckResourcesReady, D.InitConfig, CfgOf, T.Visible, FinishUpdate;
    var f := FetchTemplates(g, y, k);
    FetchHolds(g, s0, y, k, past, Updating);
    FetchCopies(g, y, k);
    if f.out.Bad? {
      ErrorKept(g, s0, f.y, f.k, f.out.err, past, Updating);
      return;
    }
    var cfg := D.InitConfig(g.name, f.k.spec, f.out.value);
    var d := R.DetectChanges(g, f.y, f.k.spec, cfg);
    DetectHolds(g, s0, f.y, f.k.spec, cfg, f.k, past, Updating);
    if d.out.Bad? {
      ErrorKept(g, s0, d.y, f.k, d.out.err, past, Updating);
      return;
    }
    if d.out.value == {} {
      SameObserved(g, s0, d.y, f.k, past, Updating);
      var m := f.k.(status := f.k.status.(observedGeneration := f.k.generation));
      assert m == f.k;
      Mark2Holds(g, s0, d.y, m, False, NoChanges, True, ResourcesHealthy, d.y.t, past, Updating);
      Mark2Meaning(m, False, NoChanges, True, ResourcesHealthy, d.y.t);
      SaveKept(g, s0, d.y, Mark2(m, False, NoChanges, True, ResourcesHealthy, d.y.t), Active, REQUEUE, past, Updating);
      return;
    }
    var a := R.ApplyConfiguration(g, d.y, f.k.spec, cfg, d.out.value);
    ApplyHolds(g, s0, d.y, cfg, d.out.value, R.ORDER, f.k, past, Updating);
    if a.out.Bad? {
      ErrorKept(g, s0, a.y, f.k, a.out.err, past, Updating);
      return;
    }
    var v := R.ValidateConfiguration(g, a.y, f.k.spec, a.out.value);
    ValidateHolds(g, s0, a.y, f.k.spec, a.out.value, f.k, past, Updating);
    if v.err.Some? {
      ErrorKept(g, s0, v.y, f.k, v.err.value, past, Updating);
      return;
    }
    var r := R.CheckResourcesReady(g, v.y, f.k.spec, a.out.value);
    ReadyHolds(g, s0, v.y, f.k.spec, a.out.value, f.k, past, Updating);
    if r.out.Bad? {
      ErrorKept(g, s0, r.y, f.k, r.out.err, past, Updating);
      return;
    }
    FinishUpdateKept(g, s0, r.y, f.k, f.out.value.spec.port, r.out.value, past);
  }

  // ---- Deleting ----

  lemma {:induction false} AbsentHolds(g: Setting, s0: KodeSpec, y: Sys, keys: seq<Key>, k: Kode, past: seq<Status>,
                                       ph: Phase)
    requires Holds(g, s0, y, k, past, ph)
    ensures var r := R.CheckAbsent(g, y, keys);
            && Holds(g, s0, r.y, k, past, ph)
            && r.out != Bad(NilPointer)
            && (r.out == Ok(true) ==> forall key :: key in keys ==> !Exists(r.y.w.children, key))
            && (forall key :: !Exists(y.w.children, key) ==> !Exists(r.y.w.children, key))
    decreases |keys|
  {
    hide Holds, Enter, Exists;
    if keys != [] {
      EnterHolds(g, s0, y, k, past, ph);
      var z := Enter(g, y);
      AbsentHolds(g, s0, z, keys[1..], k, past, ph);
    }
  }

  lemma TerminateHolds(g: Setting, s0: KodeSpec, y: Sys, key: Key, k: Kode, past: seq<Status>, ph: Phase)
    requires Holds(g, s0, y, k, past, ph)
    ensures Holds(g, s0, PutChildren(y, Terminate(y.w.children, key), {}), k, past, ph)
  {
    hide Holds;
    PutHolds(g, s0, y, k, Terminate(y.w.children, key), {}, past, ph);
  }

  lemma {:induction false} DeleteKeysHolds(g: Setting, s0: KodeSpec, y: Sys, keys: seq<Key>, initiated: bool, k: Kode,
                                           past: seq<Status>, ph: Phase)
    requires Holds(g, s0, y, k, past, ph)
    ensures var r := R.DeleteKeys(g, y, k.spec, keys, initiated);
            && Holds(g, s0, r.y, k, past, ph)
            && r.out != Bad(NilPointer)
            && (r.out.Ok? && (initiated || (keys != [] && R.ShouldDelete(k.spec, keys[0]))) ==> r.out.value)
    decreases |keys|
  {
    hide Holds, Enter, Terminate, PutChildren, R.ShouldDelete;
    if keys != [] {
      if R.ShouldDelete(k.spec, keys[0]) {
        EnterHolds(g, s0, y, k, past, ph);
        var z := Enter(g, y);
        TerminateHolds(g, s0, z, keys[0], k, past, ph);
        DeleteKeysHolds(g, s0, PutChildren(z, Terminate(z.w.children, keys[0]), {}), keys[1..], true, k, past, ph);
      } else {
        DeleteKeysHolds(g, s0, y, keys[1..], initiated, k, past, ph);
      }
    }
  }

  /** Cleanup always asks to come back: the stateful set is always in its list, and deleting what is
      already gone counts. */
  lemma CleanupHolds(g: Setting, s0: KodeSpec, y: Sys, k: Kode, past: seq<Status>, ph: Phase)
    requires Holds(g, s0, y, k, past, ph)
    ensures var r := R.Cleanup(g, y, k.spec);
            Holds(g, s0, r.y, k, past, ph) && (r.out.Ok? ==> r.out.value == Result(false, 1))
  {
    DeleteKeysHolds(g, s0, y, R.CleanupKeys(g, k.spec), false, k, past, ph);
    hide Holds, R.DeleteKeys;
  }

  lemma CycleHolds(g: Setting, s0: KodeSpec, y: Sys, k: Kode, past: seq<Status>)
    requires Holds(g, s0, y, k, past, Deleting)
    ensures Holds(g, s0, y, k.(status := k.status.(deletionCycle := k.status.deletionCycle + 1)), past, Deleting)
  {
    ChangeHolds(g, s0, y, k, k.(status := k.status.(deletionCycle := k.status.deletionCycle + 1)), past, Deleting) by { hide Inv, HasAll; }
  }

  lemma AwaitKept(g: Setting, s0: KodeSpec, y: Sys, k: Kode, past: seq<Status>)
    requires Holds(g, s0, y, k, past, Deleting)
    ensures Kept(g, s0, k.generation, k.status.retryCount, AwaitChildren(g, y, k), past, Deleting)
  {
    hide Holds, Kept, HandleReconcileError, SaveOrRequeue, R.Cleanup;
    var m := k.(status := k.status.(deletionCycle := k.status.deletionCycle + 1));
    CycleHolds(g, s0, y, k, past);
    if k.status.deletionCycle == 0 {
      CleanupHolds(g, s0, y, m, past, Deleting);
      var c := R.Cleanup(g, y, m.spec);
      if c.out.Bad? {
        ErrorKept(g, s0, c.y, m, c.out.err, past, Deleting);
      } else {
        SaveQuietlyKept(g, s0, c.y, m, c.out.value, past, Deleting);
      }
    } else {
      SaveQuietlyKept(g, s0, y, m, Result(false, g.interval), past, Deleting);
    }
  }

  /** Taking the finalizer off once everything required is absent. */
  lemma ReleaseKept(g: Setting, s0: KodeSpec, y: Sys, k: Kode, past: seq<Status>)
    requires Holds(g, s0, y, k, past, Deleting)
    requires forall key :: key in R.RequiredAbsent(g, k.spec) ==> !Exists(y.w.children, key)
    ensures var r := RemoveFinalizer(g, y, k.spec);
            && Inv(g, s0, r.y.w) && r.y.log == y.log
            && (r.err.Some? ==> Holds(g, s0, r.y, k, past, Deleting))
            && (r.err.None? ==> !Live(r.y.w))
  {
    EnterHolds(g, s0, y, k, past, Deleting);
    hide Enter, StatusOk, SameNames, OwnUnder, IsOwn, R.RequiredAbsent, Exists, KeepsNames, KeepsRef, Published,
      ThePort, TheUrl;
  }

  /** Staying in Deleting without an error. */
  lemma WaitingKept(g: Setting, s0: KodeSpec, y: Sys, k: Kode, result: Result, past: seq<Status>)
    requires Holds(g, s0, y, k, past, Deleting) && (result.requeue || result.after > 0)
    ensures Kept(g, s0, k.generation, k.status.retryCount, Out(y, k, Deleting, result, None), past, Deleting)
  {
    hide Inv, CopyOk, LogIs;
  }

  lemma ReleasedKept(g: Setting, s0: KodeSpec, y: Sys, k: Kode, past: seq<Status>)
    requires Holds(g, s0, y, k, past, Deleting) && k.finalizer
    requires forall key :: key in R.RequiredAbsent(g, k.spec) ==> !Exists(y.w.children, key)
    ensures var r := RemoveFinalizer(g, y, k.spec);
            && (r.err.Some? ==> Holds(g, s0, r.y, k, past, Deleting))
            && (r.err.None? ==>
                  Kept(g, s0, k.generation, k.status.retryCount, Out(r.y, k, Deleting, NO_REQUEUE, None), past, Deleting))
  {
    ReleaseKept(g, s0, y, k, past);
    hide Inv, CopyOk, LogIs, RemoveFinalizer, R.RequiredAbsent, Exists;
  }

  /** Once the save got through: the check, and the release or the wait. */
  lemma SavedDeletingKept(g: Setting, s0: KodeSpec, y: Sys, k: Kode, past: seq<Status>)
    requires Holds(g, s0, y, k, past, Deleting) && k.finalizer
    ensures var c := R.CheckResourcesDeleted(g, y, k.spec);
            var r := RemoveFinalizer(g, c.y, k.spec);
            && (c.out.Bad? ==> Kept(g, s0, k.generation, k.status.retryCount, HandleReconcileError(g, c.y, k, c.out.err), past, Deleting))
            && (c.out == Ok(false) ==> Kept(g, s0, k.generation, k.status.retryCount, AwaitChildren(g, c.y, k), past, Deleting))
            && (c.out == Ok(true) && r.err.Some? ==>
                  Kept(g, s0, k.generation, k.status.retryCount, HandleReconcileError(g, r.y, k, r.err.value), past, Deleting))
            && (c.out == Ok(true) && r.err.None? ==>
                  Kept(g, s0, k.generation, k.status.retryCount, Out(r.y, k, Deleting, NO_REQUEUE, None), past, Deleting))
  {
    var c := R.CheckResourcesDeleted(g, y, k.spec);
    AbsentHolds(g, s0, y, R.RequiredAbsent(g, k.spec), k, past, Deleting);
    hide R.RequiredAbsent, R.CheckAbsent, AwaitChildren, RemoveFinalizer, HandleReconcileError, Exists, Holds, Kept;
    if c.out.Bad? {
      ErrorKept(g, s0, c.y, k, c.out.err, past, Deleting);
    } else if !c.out.value {
      AwaitKept(g, s0, c.y, k, past);
    } else {
      ReleasedKept(g, s0, c.y, k, past);
      var r := RemoveFinalizer(g, c.y, k.spec);
      if r.err.Some? {
        ErrorKept(g, s0, r.y, k, r.err.value, past, Deleting);
      }
    }
  }

  lemma DeletingKept(g: Setting, s0: KodeSpec, y: Sys, k: Kode, past: seq<Status>)
    requires Holds(g, s0, y, k, past, Deleting)
    ensures Kept(g, s0, k.generation, k.status.retryCount, HandleDeleting(g, y, k), past, Deleting)
  {
    var m := Mark3(k, False, DeletingResource, False, DeletingResource, True, DeletingResource, y.t);
    Mark3Holds(g, s0, y, k, False, DeletingResource, False, DeletingResource, True, DeletingResource, y.t, past, Deleting);
    Mark3Meaning(k, False, DeletingResource, False, DeletingResource, True, DeletingResource, y.t);
    SaveHolds(g, s0, y, m, past, Deleting);
    hide Holds, Kept, Mark3, HandleReconcileError, HasAll, UpdateStatus, R.CheckResourcesDeleted, AwaitChildren, RemoveFinalizer,
      C.Get;
    var u := UpdateStatus(g, y, m.status);
    SameObserved(g, s0, u.y, m, past, Deleting);
    if u.err.Some? {
      WaitingKept(g, s0, u.y, m, REQUEUE, past);
    } else {
      SavedDeletingKept(g, s0, u.y, m, past);
    }
  }

  // ---- Failed ----

  /** Recovery starts from Pending or Provisioning only: under the generation gate Configuring is not reached. */
  lemma RecoveryHolds(g: Setting, s0: KodeSpec, y: Sys, k: Kode, past: seq<Status>)
    requires Holds(g, s0, y, k, past, Failed)
    ensures var d := DetermineRecoveryPhase(g, y, k);
            && Holds(g, s0, d.y, d.k, past, Failed)
            && d.k == k.(status := k.status.(runtime := d.k.status.runtime))
            && (d.phase == Pending || d.phase == Provisioning)
  {
    hide Holds, FetchTemplates, R.CheckResourcesReady, D.InitConfig, CfgOf, T.Visible;
    var f := FetchTemplates(g, y, k);
    FetchHolds(g, s0, y, k, past, Failed);
    FetchCopies(g, y, k);
    SameObserved(g, s0, f.y, f.k, past, Failed);
    if f.out.Ok? {
      ReadyHolds(g, s0, f.y, f.k.spec, D.InitConfig(g.name, f.k.spec, f.out.value), f.k, past, Failed);
    }
  }

  /** The retry count a Failed handler works with. */
  function NextRetry(n: int): int { if n >= MAX_RETRIES then n else n + 1 }

  lemma AttemptingHolds(g: Setting, s0: KodeSpec, y: Sys, k: Kode, now: nat)
    requires Holds(g, s0, y, k, y.log, Failed) && k.status.retryCount < MAX_RETRIES
    ensures Holds(g, s0, y, Attempting(k, now), y.log, Failed) && HasAll(Attempting(k, now).status)
    ensures Attempting(k, now).generation == k.generation && Attempting(k, now).status.retryCount == k.status.retryCount + 1
  {
    var m := Mark3(k, False, AttemptingRecovery, False, AttemptingRecovery, True, AttemptingRecovery, now);
    Mark3Holds(g, s0, y, k, False, AttemptingRecovery, False, AttemptingRecovery, True, AttemptingRecovery, now, y.log, Failed);
    Mark3Meaning(k, False, AttemptingRecovery, False, AttemptingRecovery, True, AttemptingRecovery, now);
    RetryHolds(g, s0, y, m, Attempting(k, now)) by { hide Inv, Mark3, C.Get; }
    hide Inv, CopyOk, LogIs, Mark3, C.Get;
  }

  lemma FailedKept(g: Setting, s0: KodeSpec, y: Sys, k: Kode)
    requires Holds(g, s0, y, k, y.log, Failed)
    ensures Kept(g, s0, k.generation, NextRetry(k.status.retryCount), HandleFailed(g, y, k), y.log, Failed)
  {
    hide Inv, CopyOk, LogIs, Mark3, Attempting, SaveOrRequeue, UpdateStatus, DetermineRecoveryPhase, AllFalse, C.Get;
    var past := y.log;
    if k.status.retryCount >= MAX_RETRIES {
      Mark3Holds(g, s0, y, k, False, MaxRetriesExceeded, False, MaxRetriesExceeded, False, MaxRetriesExceeded, y.t, past, Failed);
      Mark3Meaning(k, False, MaxRetriesExceeded, False, MaxRetriesExceeded, False, MaxRetriesExceeded, y.t);
      SaveQuietlyKept(g, s0, y, Mark3(k, False, MaxRetriesExceeded, False, MaxRetriesExceeded, False, MaxRetriesExceeded, y.t),
                      Result(false, g.longInterval), past, Failed);
    } else {
      var m := Attempting(k, y.t);
      AttemptingHolds(g, s0, y, k, y.t);
      SaveHolds(g, s0, y, m, past, Failed);
      var u := UpdateStatus(g, y, m.status);
      if u.err.None? {
        RecoveryHolds(g, s0, u.y, m, past);
      }
    }
  }
}

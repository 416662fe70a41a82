/** The Kode controller in its imperative form: utils.go, handlers.go, reconciler.go and
    internal/statemachine/statemachine.go. Each method is proved against the function of the same name
    in module Handlers: same calls in the same order, same writes, same results. */
module Controller {
  import opened KodeTypes
  import opened Cluster
  import opened Client
  import C = Conditions
  import D = Desired
  import H = Handlers
  import R = Resources
  import S = ChildResources
  import T = Templates
  import V = Views

  ghost predicate Leaves(c: ApiClient, kode: KodeObject, phase: Phase, result: Result, err: Option<Err>, o: H.Out)
    reads c, kode
  {
    o == H.Out(c.State(), kode.View(), phase, result, err)
  }

  // ---- utils.go ----

  method HandleReconcileError(c: ApiClient, kode: KodeObject, e: Err) returns (phase: Phase, result: Result,
                              err: Option<Err>)
    modifies c, kode
    ensures Leaves(c, kode, phase, result, err, H.HandleReconcileError(c.g, old(c.State()), old(kode.View()), e))
  {
    hide UpdateStatus, H.Mark3;
    if e == NilPointer {
      return Failed, Result(false, c.g.interval), Some(e);
    }
    var now := c.calls;
    kode.SetConditions(False, ReconciliationFailed, False, ReconciliationFailed, False, ReconciliationFailed, now);
    kode.status := kode.status.(lastError := Some(e), lastErrorTime := Some(now));
    var updateErr := kode.UpdateStatus(c);
    return Failed, Result(false, c.g.interval), Some(e);
  }

  method FetchTemplatesWithRetry(c: ApiClient, kode: KodeObject) returns (out: Outcome<Template>)
    modifies c, kode
    ensures H.Fetched(c.State(), kode.View(), out) == H.FetchTemplates(c.g, old(c.State()), old(kode.View()))
  {
    hide UpdateStatus, T.Visible, Enter;
    var ok := c.Call();
    if !ok {
      return Bad(Refused);
    }
    out := T.Visible(c.g.store, kode.spec.templateRef);
    if out.Bad? {
      return;
    }
    if T.IsContainerKind(kode.spec.templateRef.kind) {
      kode.status := kode.status.(runtime := Some(out.value.spec.runtimeClass));
      var err := kode.UpdateStatus(c);
      if err.Some? {
        return Bad(err.value);
      }
    }
  }

  method HandleGenerationMismatch(c: ApiClient, kode: KodeObject) returns (result: Result, err: Option<Err>)
    modifies c, kode
    ensures Ack(c.State(), err) == H.HandleGenerationMismatch(c.g, old(c.State()), old(kode.View()))
    ensures result == REQUEUE
  {
    hide UpdateStatus, H.Mark3;
    var now := c.calls;
    kode.status := kode.status.(observedGeneration := kode.generation);
    if kode.status.phase != Deleting {
      kode.status := kode.status.(phase := Updating);
      kode.SetConditions(False, GenerationMismatch, False, GenerationMismatch, True, GenerationMismatch, now);
    }
    err := kode.UpdateStatus(c);
    result := REQUEUE;
  }

  /** The tail shared by the handlers: store the status, then go on or report the failed write. */
  method SaveAndReturn(c: ApiClient, kode: KodeObject, next: Phase, wait: Result) returns (phase: Phase,
                       result: Result, err: Option<Err>)
    modifies c, kode
    ensures Leaves(c, kode, phase, result, err, H.SaveAndReturn(c.g, old(c.State()), old(kode.View()), next, wait))
  {
    hide UpdateStatus, H.HandleReconcileError;
    var e := kode.UpdateStatus(c);
    if e.Some? {
      phase, result, err := HandleReconcileError(c, kode, e.value);
      return;
    }
    return next, wait, None;
  }

  // ---- handlers.go ----

  method HandlePendingState(c: ApiClient, kode: KodeObject) returns (phase: Phase, result: Result, err: Option<Err>)
    modifies c, kode
    ensures Leaves(c, kode, phase, result, err, H.HandlePending(c.g, old(c.State()), old(kode.View())))
  {
    hide H.HandleReconcileError, H.SaveAndReturn, H.Mark3, D.KodeValid;
    var valid := V.KodeIsValid(kode.spec);
    if !valid {
      phase, result, err := HandleReconcileError(c, kode, Invalid);
      return;
    }
    kode.SetConditions(False, PendingConfiguration, False, PendingConfiguration, True, ConfiguringResources, c.calls);
    phase, result, err := SaveAndReturn(c, kode, Configuring, REQUEUE);
  }

  method HandleConfiguringState(c: ApiClient, kode: KodeObject) returns (phase: Phase, result: Result, err: Option<Err>)
    modifies c, kode
    ensures Leaves(c, kode, phase, result, err, H.HandleConfiguring(c.g, old(c.State()), old(kode.View())))
  {
    hide H.HandleReconcileError, H.SaveAndReturn, H.Mark3, H.FetchTemplates, R.DetectChanges, R.ApplyConfiguration,
      R.ValidateConfiguration, D.InitConfig;
    var fetched := FetchTemplatesWithRetry(c, kode);
    if fetched.Bad? {
      phase, result, err := HandleReconcileError(c, kode, fetched.err);
      return;
    }
    var config := D.InitConfig(c.g.name, kode.spec, fetched.value);
    var changes := S.DetectChanges(c, kode, config);
    if changes.Bad? {
      phase, result, err := HandleReconcileError(c, kode, changes.err);
      return;
    }
    var applied := S.ApplyConfiguration(c, kode, config, changes.value);
    if applied.Bad? {
      phase, result, err := HandleReconcileError(c, kode, applied.err);
      return;
    }
    var invalid := S.ValidateConfiguration(c, kode, applied.value);
    if invalid.Some? {
      phase, result, err := HandleReconcileError(c, kode, invalid.value);
      return;
    }
    kode.SetConditions(False, ConfiguringResources, False, ConfiguringResources, True, ConfiguringResources, c.calls);
    phase, result, err := SaveAndReturn(c, kode, Provisioning, REQUEUE);
  }

  method HandleProvisioningState(c: ApiClient, kode: KodeObject) returns (phase: Phase, result: Result,
                                 err: Option<Err>)
    modifies c, kode
    ensures Leaves(c, kode, phase, result, err, H.HandleProvisioning(c.g, old(c.State()), old(kode.View())))
  {
    hide H.HandleReconcileError, H.SaveAndReturn, H.Mark3, H.FetchTemplates, R.CheckResourcesReady, D.InitConfig;
    var fetched := FetchTemplatesWithRetry(c, kode);
    if fetched.Bad? {
      phase, result, err := HandleReconcileError(c, kode, fetched.err);
      return;
    }
    var ready := S.CheckResourcesReady(c, kode, D.InitConfig(c.g.name, kode.spec, fetched.value));
    if ready.Bad? {
      phase, result, err := HandleReconcileError(c, kode, ready.err);
      return;
    }
    if !ready.value {
      kode.SetConditions(False, StillProvisioning, False, StillProvisioning, True, StillProvisioning, c.calls);
      phase, result, err := SaveAndReturn(c, kode, Provisioning, Result(false, c.g.interval));
      return;
    }
    kode.SetConditions(True, ResourcesReady, True, ResourcesReady, False, Provisioned, c.calls);
    kode.status := kode.status.(kodePort := fetched.value.spec.port);
    phase, result, err := SaveAndReturn(c, kode, Active, NO_REQUEUE);
  }

  /** One of the three comparisons of the Active handler; not found means that it dereferences nil. */
  method RefreshCondition(kode: KodeObject, kind: ConditionType, value: ConditionStatus, reason: Reason, now: nat,
                          changed: bool)
    returns (found: bool, changedNow: bool)
    modifies kode
    ensures H.Refreshed(kode.status, changedNow, !found) == H.Refresh(H.Refreshed(old(kode.status), changed, false), kind, value, reason, now)
    ensures kode.View() == old(kode.View()).(status := kode.status)
  {
    hide C.Set, C.Get, Cluster.SetCondition;
    ghost var k := kode.View();
    found, changedNow := true, changed;
    var current := kode.GetCondition(kind);
    assert kode.View() == k && current == C.Get(k.status.conditions, kind);
    if current.None? {
      return false, changed;
    }
    if current.value.status != value || current.value.reason != reason {
      kode.SetCondition(kind, value, reason, now);
      assert kode.View() == k.(status := Cluster.SetCondition(k.status, kind, value, reason, now));
      return true, true;
    }
  }

  method StayActive(c: ApiClient, kode: KodeObject) returns (phase: Phase, result: Result, err: Option<Err>)
    modifies c, kode
    ensures Leaves(c, kode, phase, result, err, H.StayActive(c.g, old(c.State()), old(kode.View())))
  {
    hide H.HandleReconcileError, H.SaveAndReturn, H.Refresh;
    var now := c.calls;
    var conditionsChanged := false;
    var found;
    ghost var s := kode.status;
    found, conditionsChanged := RefreshCondition(kode, Ready, True, ResourcesHealthy, now, conditionsChanged);
    if found {
      found, conditionsChanged := RefreshCondition(kode, Available, True, ServiceAvailable, now, conditionsChanged);
      if found {
        found, conditionsChanged := RefreshCondition(kode, Progressing, False, Stable, now, conditionsChanged);
      }
    }
    assert H.Refreshed(kode.status, conditionsChanged, !found) == H.RefreshAll(s, now) by { StaysPanicked(); }
    if !found {
      phase, result, err := HandleReconcileError(c, kode, NilPointer);
      return;
    }
    if conditionsChanged {
      phase, result, err := SaveAndReturn(c, kode, Active, Result(false, c.g.longInterval));
      return;
    }
    return Active, Result(false, c.g.longInterval), None;
  }

  lemma StaysPanicked()
    ensures forall r: H.Refreshed, kind, status, reason, now {:trigger H.Refresh(r, kind, status, reason, now)} ::
              r.panicked ==> H.Refresh(r, kind, status, reason, now) == r
  {
  }

  method HandleActiveState(c: ApiClient, kode: KodeObject) returns (phase: Phase, result: Result, err: Option<Err>)
    modifies c, kode
    ensures Leaves(c, kode, phase, result, err, H.HandleActive(c.g, old(c.State()), old(kode.View())))
  {
    hide H.HandleReconcileError, H.SaveAndReturn, H.Mark3, H.FetchTemplates, R.CheckResourcesReady, D.InitConfig,
      H.StayActive, Cluster.SetCondition, UpdateStatus;
    if kode.generation != kode.status.observedGeneration {
      var now := c.calls;
      kode.SetCondition(Progressing, True, UpdateRequired, now);
      kode.SetCondition(Ready, False, UpdateRequired, now);
      phase, result, err := SaveAndReturn(c, kode, Updating, REQUEUE);
      return;
    }
    var fetched := FetchTemplatesWithRetry(c, kode);
    if fetched.Bad? {
      phase, result, err := HandleReconcileError(c, kode, fetched.err);
      return;
    }
    var ready := S.CheckResourcesReady(c, kode, D.InitConfig(c.g.name, kode.spec, fetched.value));
    if ready.Bad? {
      phase, result, err := HandleReconcileError(c, kode, ready.err);
      return;
    }
    if !ready.value {
      kode.SetConditions(False, ResourcesNotReady, False, ResourcesNotReady, True, ResourcesNotReady, c.calls);
      phase, result, err := SaveAndReturn(c, kode, Updating, Result(false, c.g.interval));
      return;
    }
    if kode.status.kodePort != fetched.value.spec.port {
      kode.status := kode.status.(kodePort := fetched.value.spec.port);
      var e := kode.UpdateStatus(c);
      if e.Some? {
        phase, result, err := HandleReconcileError(c, kode, e.value);
        return;
      }
    }
    phase, result, err := StayActive(c, kode);
  }

  method HandleUpdatingState(c: ApiClient, kode: KodeObject) returns (phase: Phase, result: Result, err: Option<Err>)
    modifies c, kode
    ensures Leaves(c, kode, phase, result, err, H.HandleUpdating(c.g, old(c.State()), old(kode.View())))
  {
    hide H.HandleReconcileError, H.SaveAndReturn, H.Mark3, H.FetchTemplates, R.DetectChanges, R.ApplyConfiguration,
      R.ValidateConfiguration, R.CheckResourcesReady, D.InitConfig, Cluster.SetCondition;
    var fetched := FetchTemplatesWithRetry(c, kode);
    if fetched.Bad? {
      phase, result, err := HandleReconcileError(c, kode, fetched.err);
      return;
    }
    var config := D.InitConfig(c.g.name, kode.spec, fetched.value);
    var changes := S.DetectChanges(c, kode, config);
    if changes.Bad? {
      phase, result, err := HandleReconcileError(c, kode, changes.err);
      return;
    }
    if changes.value == {} {
      kode.status := kode.status.(observedGeneration := kode.generation);
      var now := c.calls;
      kode.SetCondition(Progressing, False, NoChanges, now);
      kode.SetCondition(Ready, True, ResourcesHealthy, now);
      phase, result, err := SaveAndReturn(c, kode, Active, REQUEUE);
      return;
    }
    var applied := S.ApplyConfiguration(c, kode, config, changes.value);
    if applied.Bad? {
      phase, result, err := HandleReconcileError(c, kode, applied.err);
      return;
    }
    var invalid := S.ValidateConfiguration(c, kode, applied.value);
    if invalid.Some? {
      phase, result, err := HandleReconcileError(c, kode, invalid.value);
      return;
    }
    var ready := S.CheckResourcesReady(c, kode, applied.value);
    if ready.Bad? {
      phase, result, err := HandleReconcileError(c, kode, ready.err);
      return;
    }
    var now := c.calls;
    if !ready.value {
      kode.SetCondition(Progressing, True, UpdateInProgress, now);
      kode.SetCondition(Ready, False, UpdateInProgress, now);
      phase, result, err := SaveAndReturn(c, kode, Updating, Result(false, c.g.interval));
      return;
    }
    kode.status := kode.status.(observedGeneration := kode.generation, kodePort := fetched.value.spec.port);
    kode.SetConditions(True, UpdateComplete, True, ServiceAvailable, False, UpdateComplete, now);
    phase, result, err := SaveAndReturn(c, kode, Active, NO_REQUEUE);
  }

  method HandleDeletingState(c: ApiClient, kode: KodeObject) returns (phase: Phase, result: Result, err: Option<Err>)
    modifies c, kode
    ensures Leaves(c, kode, phase, result, err, H.HandleDeleting(c.g, old(c.State()), old(kode.View())))
  {
    hide H.HandleReconcileError, H.Mark3, R.CheckResourcesDeleted, R.Cleanup, UpdateStatus, Cluster.RemoveFinalizer;
    kode.SetConditions(False, DeletingResource, False, DeletingResource, True, DeletingResource, c.calls);
    var e := kode.UpdateStatus(c);
    if e.Some? {
      return Deleting, REQUEUE, None;
    }
    var deleted := S.CheckResourcesDeleted(c, kode);
    if deleted.Bad? {
      phase, result, err := HandleReconcileError(c, kode, deleted.err);
      return;
    }
    if !deleted.value {
      if kode.status.deletionCycle == 0 {
        kode.status := kode.status.(deletionCycle := 1);
        var cleaned := S.CleanupChildren(c, kode);
        if cleaned.Bad? {
          phase, result, err := HandleReconcileError(c, kode, cleaned.err);
          return;
        }
        e := kode.UpdateStatus(c);
        if e.Some? {
          return Deleting, REQUEUE, None;
        }
        return Deleting, cleaned.value, None;
      }
      kode.status := kode.status.(deletionCycle := kode.status.deletionCycle + 1);
      e := kode.UpdateStatus(c);
      if e.Some? {
        return Deleting, REQUEUE, None;
      }
      return Deleting, Result(false, c.g.interval), None;
    }
    if kode.finalizer {
      e := kode.RemoveFinalizer(c);
      if e.Some? {
        phase, result, err := HandleReconcileError(c, kode, e.value);
        return;
      }
    }
    return Deleting, NO_REQUEUE, None;
  }

  method DetermineRecoveryPhase(c: ApiClient, kode: KodeObject) returns (phase: Phase)
    modifies c, kode
    ensures H.Decided(c.State(), kode.View(), phase) == H.DetermineRecoveryPhase(c.g, old(c.State()), old(kode.View()))
  {
    hide H.FetchTemplates, R.CheckResourcesReady, D.InitConfig;
    var fetched := FetchTemplatesWithRetry(c, kode);
    if fetched.Bad? {
      return Pending;
    }
    var ready := S.CheckResourcesReady(c, kode, D.InitConfig(c.g.name, kode.spec, fetched.value));
    if ready.Bad? {
      return Pending;
    }
    if !ready.value {
      return Provisioning;
    }
    if kode.generation != kode.status.observedGeneration {
      return Configuring;
    }
    return Pending;
  }

  method HandleFailedState(c: ApiClient, kode: KodeObject) returns (phase: Phase, result: Result, err: Option<Err>)
    modifies c, kode
    ensures Leaves(c, kode, phase, result, err, H.HandleFailed(c.g, old(c.State()), old(kode.View())))
  {
    hide H.Mark3, H.DetermineRecoveryPhase, UpdateStatus;
    var now := c.calls;
    if kode.status.retryCount >= H.MAX_RETRIES {
      kode.SetConditions(False, MaxRetriesExceeded, False, MaxRetriesExceeded, False, MaxRetriesExceeded, now);
      var e := kode.UpdateStatus(c);
      if e.Some? {
        return Failed, REQUEUE, None;
      }
      return Failed, Result(false, c.g.longInterval), None;
    }
    ghost var k := kode.View();
    H.Mark3Only(k, False, AttemptingRecovery, False, AttemptingRecovery, True, AttemptingRecovery, now);
    kode.SetConditions(False, AttemptingRecovery, False, AttemptingRecovery, True, AttemptingRecovery, now);
    kode.status := kode.status.(retryCount := kode.status.retryCount + 1);
    if kode.status.lastError.Some? {
      kode.status := kode.status.(lastError := None, lastErrorTime := None);
    }
    assert kode.View() == H.Attempting(k, now);
    var e := kode.UpdateStatus(c);
    if e.Some? {
      return Failed, REQUEUE, None;
    }
    var recovery := DetermineRecoveryPhase(c, kode);
    return recovery, REQUEUE, None;
  }

  method DetermineResourceState(c: ApiClient, kode: KodeObject) returns (phase: Phase)
    modifies c, kode
    ensures H.Decided(c.State(), kode.View(), phase) == H.DetermineResourceState(c.g, old(c.State()), old(kode.View()))
  {
    hide H.FetchTemplates, R.CheckResourcesReady, D.InitConfig;
    var fetched := FetchTemplatesWithRetry(c, kode);
    if fetched.Bad? {
      return Pending;
    }
    if kode.generation != kode.status.observedGeneration {
      return Updating;
    }
    var ready := S.CheckResourcesReady(c, kode, D.InitConfig(c.g.name, kode.spec, fetched.value));
    if ready.Bad? {
      return Configuring;
    }
    if !ready.value {
      return Provisioning;
    }
    return Active;
  }

  method HandleUnknownState(c: ApiClient, kode: KodeObject) returns (phase: Phase, result: Result, err: Option<Err>)
    modifies c, kode
    ensures Leaves(c, kode, phase, result, err, H.HandleUnknown(c.g, old(c.State()), old(kode.View())))
  {
    hide H.Mark3, H.DetermineResourceState, UpdateStatus;
    kode.SetConditions(Indeterminate, StateUnknown, Indeterminate, StateUnknown, Indeterminate, StateUnknown, c.calls);
    var e := kode.UpdateStatus(c);
    if e.Some? {
      return Unknown, REQUEUE, None;
    }
    if kode.deleting {
      return Deleting, REQUEUE, None;
    }
    var determined := DetermineResourceState(c, kode);
    kode.status := kode.status.(phase := determined);
    e := kode.UpdateStatus(c);
    if e.Some? {
      return Unknown, REQUEUE, None;
    }
    return determined, REQUEUE, None;
  }

  // ---- statemachine.go ----

  /** The handler functions, by name. */
  datatype Handler =
    | PendingHandler | ConfiguringHandler | ProvisioningHandler | ActiveHandler | UpdatingHandler
    | DeletingHandler | FailedHandler | UnknownHandler

  function Meaning(h: Handler, g: Setting, y: Sys, k: Kode): H.Out {
    match h
    case PendingHandler => H.HandlePending(g, y, k)
    case ConfiguringHandler => H.HandleConfiguring(g, y, k)
    case ProvisioningHandler => H.HandleProvisioning(g, y, k)
    case ActiveHandler => H.HandleActive(g, y, k)
    case UpdatingHandler => H.HandleUpdating(g, y, k)
    case DeletingHandler => H.HandleDeleting(g, y, k)
    case FailedHandler => H.HandleFailed(g, y, k)
    case UnknownHandler => H.HandleUnknown(g, y, k)
  }

  method Invoke(h: Handler, c: ApiClient, kode: KodeObject) returns (phase: Phase, result: Result, err: Option<Err>)
    modifies c, kode
    ensures Leaves(c, kode, phase, result, err, Meaning(h, c.g, old(c.State()), old(kode.View())))
  {
    hide H.HandlePending, H.HandleConfiguring, H.HandleProvisioning, H.HandleActive, H.HandleUpdating,
      H.HandleDeleting, H.HandleFailed, H.HandleUnknown;
    match h {
      case PendingHandler => phase, result, err := HandlePendingState(c, kode);
      case ConfiguringHandler => phase, result, err := HandleConfiguringState(c, kode);
      case ProvisioningHandler => phase, result, err := HandleProvisioningState(c, kode);
      case ActiveHandler => phase, result, err := HandleActiveState(c, kode);
      case UpdatingHandler => phase, result, err := HandleUpdatingState(c, kode);
      case DeletingHandler => phase, result, err := HandleDeletingState(c, kode);
      case FailedHandler => phase, result, err := HandleFailedState(c, kode);
      case UnknownHandler => phase, result, err := HandleUnknownState(c, kode);
    }
  }

  class StateMachine {
    var handlers: map<Phase, Handler>

    constructor ()
      ensures handlers == map[]
    {
      handlers := map[];
    }

    method RegisterHandler(phase: Phase, handler: Handler)
      modifies this
      ensures handlers == old(handlers)[phase := handler]
    {
      handlers := handlers[phase := handler];
    }

    /** A phase without handler is an error and changes nothing; otherwise the handler runs, and the phase
        it returns is stored when it is a new one and there was no error. */
    method HandleState(c: ApiClient, kode: KodeObject) returns (result: Result, err: Option<Err>)
      modifies c, kode
      ensures old(kode.status.phase) !in handlers ==>
                c.State() == old(c.State()) && kode.View() == old(kode.View()) && result == NO_REQUEUE && err == Some(NoHandler)
      ensures old(kode.status.phase) in handlers ==>
                H.Done(c.State(), result, err) ==
                H.Advance(c.g, old(kode.status.phase), Meaning(handlers[old(kode.status.phase)], c.g, old(c.State()), old(kode.View())))
    {
      hide Meaning, UpdateStatus;
      var current := kode.status.phase;
      if current !in handlers {
        return NO_REQUEUE, Some(NoHandler);
      }
      var next;
      next, result, err := Invoke(handlers[current], c, kode);
      if err.Some? {
        return Result(false, c.g.interval), err;
      }
      if next != current {
        kode.status := kode.status.(phase := next);
        err := kode.UpdateStatus(c);
        if err.Some? {
          return Result(false, c.g.interval), err;
        }
      }
    }
  }

  // ---- reconciler.go ----

  const REGISTERED: map<Phase, Handler> :=
    map[Pending := PendingHandler, Configuring := ConfiguringHandler, Provisioning := ProvisioningHandler, Active := ActiveHandler,
        Updating := UpdatingHandler, Deleting := DeletingHandler, Failed := FailedHandler, Unknown := UnknownHandler]

  lemma RegisteredHandles(g: Setting, y: Sys, k: Kode)
    ensures k.status.phase in REGISTERED <==> k.status.phase != Uninitialised
    ensures k.status.phase in REGISTERED ==> Meaning(REGISTERED[k.status.phase], g, y, k) == H.Handle(g, y, k)
  {
    hide H.HandlePending, H.HandleConfiguring, H.HandleProvisioning, H.HandleActive, H.HandleUpdating,
      H.HandleDeleting, H.HandleFailed, H.HandleUnknown;
  }

  method NewRegistered() returns (sm: StateMachine)
    ensures fresh(sm) && sm.handlers == REGISTERED
  {
    sm := new StateMachine();
    sm.RegisterHandler(Pending, PendingHandler);
    sm.RegisterHandler(Configuring, ConfiguringHandler);
    sm.RegisterHandler(Provisioning, ProvisioningHandler);
    sm.RegisterHandler(Active, ActiveHandler);
    sm.RegisterHandler(Updating, UpdatingHandler);
    sm.RegisterHandler(Deleting, DeletingHandler);
    sm.RegisterHandler(Failed, FailedHandler);
    sm.RegisterHandler(Unknown, UnknownHandler);
  }

  /** From the reset of the retry count on. */
  method RunMachine(c: ApiClient, kode: KodeObject) returns (result: Result, err: Option<Err>)
    modifies c, kode
    ensures H.Done(c.State(), result, err) == H.RunMachine(c.g, old(c.State()), old(kode.View()))
  {
    hide UpdateStatus, H.Advance, H.Handle, Meaning;
    if kode.status.phase != Failed && kode.status.retryCount > 0 {
      kode.status := kode.status.(retryCount := 0);
      err := kode.UpdateStatus(c);
      if err.Some? {
        return REQUEUE, err;
      }
    }
    var sm := NewRegistered();
    RegisteredHandles(c.g, c.State(), kode.View());
    result, err := sm.HandleState(c, kode);
    if err.Some? {
      return REQUEUE, err;
    }
  }

  method Reconcile(c: ApiClient) returns (result: Result, err: Option<Err>)
    modifies c
    ensures H.Done(c.State(), result, err) == H.Reconcile(c.g, old(c.State()))
  {
    hide Enter, UpdateStatus, H.RunMachine, H.HandleGenerationMismatch, Cluster.AddFinalizer;
    var ok := c.Call();
    if !ok {
      return NO_REQUEUE, Some(Refused);
    }
    if c.world.kode.None? {
      return NO_REQUEUE, None;
    }
    var kode := new KodeObject(c.world.kode.value);
    if kode.deleting {
      if !kode.finalizer {
        return NO_REQUEUE, None;
      }
      kode.status := kode.status.(phase := Deleting);
      err := kode.UpdateStatus(c);
      if err.Some? {
        return REQUEUE, err;
      }
    }
    if !kode.finalizer {
      err := kode.AddFinalizer(c);
      if err.Some? {
        return Result(false, c.g.interval), err;
      }
      kode.status := kode.status.(phase := Pending, observedGeneration := kode.generation);
      err := kode.UpdateStatus(c);
      return REQUEUE, err;
    }
    if kode.finalizer && kode.generation != kode.status.observedGeneration {
      result, err := HandleGenerationMismatch(c, kode);
      return;
    }
    result, err := RunMachine(c, kode);
  }
}

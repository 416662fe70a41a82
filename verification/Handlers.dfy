/** The phase handlers, the state machine and Reconcile of the Kode controller as functions of the
    cluster: internal/controllers/kode/handlers.go, reconciler.go and utils.go, and
    internal/statemachine/statemachine.go. The imperative form is in module Controller. */
module Handlers {
  import opened KodeTypes
  import opened Cluster
  import C = Conditions
  import D = Desired
  import R = Resources
  import T = Templates

  /** What a handler leaves: the cluster, the controller's copy of the Kode, and its three results. */
  datatype Out = Out(y: Sys, k: Kode, phase: Phase, result: Result, err: Option<Err>)

  const MAX_RETRIES := 5

  function WithPhase(k: Kode, p: Phase): Kode { k.(status := k.status.(phase := p)) }

  /** The three conditions every handler sets together. */
  function Mark3(k: Kode, ready: ConditionStatus, why: Reason, available: ConditionStatus, whyAvailable: Reason,
                 progressing: ConditionStatus, whyProgressing: Reason, now: nat): Kode
  {
    var s := SetCondition(k.status, Ready, ready, why, now);
    var s1 := SetCondition(s, Available, available, whyAvailable, now);
    k.(status := SetCondition(s1, Progressing, progressing, whyProgressing, now))
  }

  /** Setting conditions changes nothing but the conditions. */
  lemma Mark3Only(k: Kode, a: ConditionStatus, wa: Reason, b: ConditionStatus, wb: Reason, c: ConditionStatus,
                  wc: Reason, now: nat)
    ensures var m := Mark3(k, a, wa, b, wb, c, wc, now);
            m == k.(status := k.status.(conditions := m.status.conditions))
  {
  }

  function Mark2(k: Kode, progressing: ConditionStatus, whyProgressing: Reason, ready: ConditionStatus, why: Reason, now: nat): Kode {
    var s := SetCondition(k.status, Progressing, progressing, whyProgressing, now);
    k.(status := SetCondition(s, Ready, ready, why, now))
  }

  // ---- utils.go ----

  function Failing(k: Kode, e: Err, now: nat): Kode {
    var m := Mark3(k, False, ReconciliationFailed, False, ReconciliationFailed, False, ReconciliationFailed, now);
    m.(status := m.status.(lastError := Some(e), lastErrorTime := Some(now)))
  }

  /** handleReconcileError; a nil dereference never reaches it. */
  function HandleReconcileError(g: Setting, y: Sys, k: Kode, e: Err): Out {
    if e == NilPointer then Out(y, k, Failed, Result(false, g.interval), Some(e))
    else
      var m := Failing(k, e, y.t);
      Out(UpdateStatus(g, y, m.status).y, m, Failed, Result(false, g.interval), Some(e))
  }

  /** Store the copy's status, then return `phase` and `result`, or handle the error. */
  function SaveAndReturn(g: Setting, y: Sys, k: Kode, phase: Phase, result: Result): Out {
    var u := UpdateStatus(g, y, k.status);
    if u.err.Some? then HandleReconcileError(g, u.y, k, u.err.value) else Out(u.y, k, phase, result, None)
  }

  datatype Fetched = Fetched(y: Sys, k: Kode, out: Outcome<Template>)

  /** fetchTemplatesWithRetry: for the container kinds the runtime is written to the status at once. */
  function FetchTemplates(g: Setting, y: Sys, k: Kode): Fetched {
    var z := Enter(g, y);
    if !Up(g, y) then Fetched(z, k, Bad(Refused))
    else match T.Visible(g.store, k.spec.templateRef)
      case Bad(e) => Fetched(z, k, Bad(e))
      case Ok(template) =>
        if !T.IsContainerKind(k.spec.templateRef.kind) then Fetched(z, k, Ok(template))
        else
          var m := k.(status := k.status.(runtime := Some(template.spec.runtimeClass)));
          var u := UpdateStatus(g, z, m.status);
          Fetched(u.y, m, if u.err.Some? then Bad(u.err.value) else Ok(template))
  }

  /** handleGenerationMismatch; the second part is whether the write failed. */
  function HandleGenerationMismatch(g: Setting, y: Sys, k: Kode): Ack {
    var m := k.(status := k.status.(observedGeneration := k.generation));
    var n := if k.status.phase == Deleting then m
             else Mark3(WithPhase(m, Updating), False, GenerationMismatch, False, GenerationMismatch, True, GenerationMismatch, y.t);
    UpdateStatus(g, y, n.status)
  }

  // ---- handlers.go ----

  function HandlePending(g: Setting, y: Sys, k: Kode): Out {
    if !D.KodeValid(k.spec) then HandleReconcileError(g, y, k, Invalid)
    else
      var m := Mark3(k, False, PendingConfiguration, False, PendingConfiguration, True, ConfiguringResources, y.t);
      SaveAndReturn(g, y, m, Configuring, REQUEUE)
  }

  function HandleConfiguring(g: Setting, y: Sys, k: Kode): Out {
    var f := FetchTemplates(g, y, k);
    if f.out.Bad? then HandleReconcileError(g, f.y, f.k, f.out.err)
    else
      var cfg := D.InitConfig(g.name, f.k.spec, f.out.value);
      var d := R.DetectChanges(g, f.y, f.k.spec, cfg);
      if d.out.Bad? then HandleReconcileError(g, d.y, f.k, d.out.err)
      else
        var a := R.ApplyConfiguration(g, d.y, f.k.spec, cfg, d.out.value);
        if a.out.Bad? then HandleReconcileError(g, a.y, f.k, a.out.err)
        else
          var v := R.ValidateConfiguration(g, a.y, f.k.spec, a.out.value);
          if v.err.Some? then HandleReconcileError(g, v.y, f.k, v.err.value)
          else
            var m := Mark3(f.k, False, ConfiguringResources, False, ConfiguringResources, True, ConfiguringResources, v.y.t);
            SaveAndReturn(g, v.y, m, Provisioning, REQUEUE)
  }

  function HandleProvisioning(g: Setting, y: Sys, k: Kode): Out {
    var f := FetchTemplates(g, y, k);
    if f.out.Bad? then HandleReconcileError(g, f.y, f.k, f.out.err)
    else
      var r := R.CheckResourcesReady(g, f.y, f.k.spec, D.InitConfig(g.name, f.k.spec, f.out.value));
      if r.out.Bad? then HandleReconcileError(g, r.y, f.k, r.out.err)
      else if !r.out.value then
        var m := Mark3(f.k, False, StillProvisioning, False, StillProvisioning, True, StillProvisioning, r.y.t);
        SaveAndReturn(g, r.y, m, Provisioning, Result(false, g.interval))
      else
        var m := Mark3(f.k, True, ResourcesReady, True, ResourcesReady, False, Provisioned, r.y.t);
        var n := m.(status := m.status.(kodePort := f.out.value.spec.port));
        SaveAndReturn(g, r.y, n, Active, NO_REQUEUE)
  }

  /** The copy under the Active handler's comparisons; `panicked` once one has dereferenced a nil condition. */
  datatype Refreshed = Refreshed(s: Status, changed: bool, panicked: bool)

  /** One of the three comparisons. */
  function Refresh(r: Refreshed, kind: ConditionType, status: ConditionStatus, reason: Reason, now: nat): Refreshed {
    if r.panicked then r
    else match C.Get(r.s.conditions, kind)
      case None => r.(panicked := true)
      case Some(c) =>
        if c.status != status || c.reason != reason
        then Refreshed(SetCondition(r.s, kind, status, reason, now), true, false) else r
  }

  function RefreshAll(s: Status, now: nat): Refreshed {
    var r := Refresh(Refreshed(s, false, false), Ready, True, ResourcesHealthy, now);
    var r1 := Refresh(r, Available, True, ServiceAvailable, now);
    Refresh(r1, Progressing, False, Stable, now)
  }

  /** The last part of the Active handler. */
  function StayActive(g: Setting, y: Sys, k: Kode): Out {
    var r := RefreshAll(k.status, y.t);
    var m := k.(status := r.s);
    if r.panicked then HandleReconcileError(g, y, m, NilPointer)
    else if r.changed then SaveAndReturn(g, y, m, Active, Result(false, g.longInterval))
    else Out(y, m, Active, Result(false, g.longInterval), None)
  }

  function HandleActive(g: Setting, y: Sys, k: Kode): Out {
    if k.generation != k.status.observedGeneration then
      SaveAndReturn(g, y, Mark2(k, True, UpdateRequired, False, UpdateRequired, y.t), Updating, REQUEUE)
    else
      var f := FetchTemplates(g, y, k);
      if f.out.Bad? then HandleReconcileError(g, f.y, f.k, f.out.err)
      else
        var r := R.CheckResourcesReady(g, f.y, f.k.spec, D.InitConfig(g.name, f.k.spec, f.out.value));
        if r.out.Bad? then HandleReconcileError(g, r.y, f.k, r.out.err)
        else if !r.out.value then
          var m := Mark3(f.k, False, ResourcesNotReady, False, ResourcesNotReady, True, ResourcesNotReady, r.y.t);
          SaveAndReturn(g, r.y, m, Updating, Result(false, g.interval))
        else if f.k.status.kodePort != f.out.value.spec.port then
          var m := f.k.(status := f.k.status.(kodePort := f.out.value.spec.port));
          var u := UpdateStatus(g, r.y, m.status);
          if u.err.Some? then HandleReconcileError(g, u.y, m, u.err.value) else StayActive(g, u.y, m)
        else StayActive(g, r.y, f.k)
  }

  /** The end of the Updating handler, once changes have been applied and validated. */
  function FinishUpdate(g: Setting, y: Sys, k: Kode, port: int, ready: bool): Out {
    if !ready then
      SaveAndReturn(g, y, Mark2(k, True, UpdateInProgress, False, UpdateInProgress, y.t), Updating, Result(false, g.interval))
    else
      var m := k.(status := k.status.(observedGeneration := k.generation, kodePort := port));
      SaveAndReturn(g, y, Mark3(m, True, UpdateComplete, True, ServiceAvailable, False, UpdateComplete, y.t), Active, NO_REQUEUE)
  }

  function HandleUpdating(g: Setting, y: Sys, k: Kode): Out {
    var f := FetchTemplates(g, y, k);
    if f.out.Bad? then HandleReconcileError(g, f.y, f.k, f.out.err)
    else
      var cfg := D.InitConfig(g.name, f.k.spec, f.out.value);
      var d := R.DetectChanges(g, f.y, f.k.spec, cfg);
      if d.out.Bad? then HandleReconcileError(g, d.y, f.k, d.out.err)
      else if d.out.value == {} then
        var m := f.k.(status := f.k.status.(observedGeneration := f.k.generation));
        SaveAndReturn(g, d.y, Mark2(m, False, NoChanges, True, ResourcesHealthy, d.y.t), Active, REQUEUE)
      else
        var a := R.ApplyConfiguration(g, d.y, f.k.spec, cfg, d.out.value);
        if a.out.Bad? then HandleReconcileError(g, a.y, f.k, a.out.err)
        else
          var v := R.ValidateConfiguration(g, a.y, f.k.spec, a.out.value);
          if v.err.Some? then HandleReconcileError(g, v.y, f.k, v.err.value)
          else
            var r := R.CheckResourcesReady(g, v.y, f.k.spec, a.out.value);
            if r.out.Bad? then HandleReconcileError(g, r.y, f.k, r.out.err)
            else FinishUpdate(g, r.y, f.k, f.out.value.spec.port, r.out.value)
  }

  /** Store the copy's status; a failure only requeues. */
  function SaveOrRequeue(g: Setting, y: Sys, k: Kode, phase: Phase, result: Result): Out {
    var u := UpdateStatus(g, y, k.status);
    Out(u.y, k, phase, if u.err.Some? then REQUEUE else result, None)
  }

  /** The Deleting handler while some child is still there. */
  function AwaitChildren(g: Setting, y: Sys, k: Kode): Out {
    var m := k.(status := k.status.(deletionCycle := k.status.deletionCycle + 1));
    if k.status.deletionCycle == 0 then
      var c := R.Cleanup(g, y, m.spec);
      if c.out.Bad? then HandleReconcileError(g, c.y, m, c.out.err)
      else SaveOrRequeue(g, c.y, m, Deleting, c.out.value)
    else SaveOrRequeue(g, y, m, Deleting, Result(false, g.interval))
  }

  function HandleDeleting(g: Setting, y: Sys, k: Kode): Out {
    var m := Mark3(k, False, DeletingResource, False, DeletingResource, True, DeletingResource, y.t);
    var u := UpdateStatus(g, y, m.status);
    if u.err.Some? then Out(u.y, m, Deleting, REQUEUE, None)
    else
      var c := R.CheckResourcesDeleted(g, u.y, m.spec);
      if c.out.Bad? then HandleReconcileError(g, c.y, m, c.out.err)
      else if !c.out.value then AwaitChildren(g, c.y, m)
      else if !m.finalizer then Out(c.y, m, Deleting, NO_REQUEUE, None)
      else
        var r := RemoveFinalizer(g, c.y, m.spec);
        if r.err.Some? then HandleReconcileError(g, r.y, m, r.err.value) else Out(r.y, m, Deleting, NO_REQUEUE, None)
  }

  datatype Decided = Decided(y: Sys, k: Kode, phase: Phase)

  /** determineRecoveryPhase. */
  function DetermineRecoveryPhase(g: Setting, y: Sys, k: Kode): Decided {
    var f := FetchTemplates(g, y, k);
    if f.out.Bad? then Decided(f.y, f.k, Pending)
    else
      var r := R.CheckResourcesReady(g, f.y, f.k.spec, D.InitConfig(g.name, f.k.spec, f.out.value));
      if r.out.Bad? then Decided(r.y, f.k, Pending)
      else if !r.out.value then Decided(r.y, f.k, Provisioning)
      else if f.k.generation != f.k.status.observedGeneration then Decided(r.y, f.k, Configuring)
      else Decided(r.y, f.k, Pending)
  }

  /** The copy before a recovery attempt is stored. */
  function Attempting(k: Kode, now: nat): Kode {
    var m := Mark3(k, False, AttemptingRecovery, False, AttemptingRecovery, True, AttemptingRecovery, now);
    m.(status := m.status.(retryCount := k.status.retryCount + 1, lastError := None,
                           lastErrorTime := if k.status.lastError.Some? then None else k.status.lastErrorTime))
  }

  function HandleFailed(g: Setting, y: Sys, k: Kode): Out {
    if k.status.retryCount >= MAX_RETRIES then
      var m := Mark3(k, False, MaxRetriesExceeded, False, MaxRetriesExceeded, False, MaxRetriesExceeded, y.t);
      SaveOrRequeue(g, y, m, Failed, Result(false, g.longInterval))
    else
      var m := Attempting(k, y.t);
      var u := UpdateStatus(g, y, m.status);
      if u.err.Some? then Out(u.y, m, Failed, REQUEUE, None)
      else
        var d := DetermineRecoveryPhase(g, u.y, m);
        Out(d.y, d.k, d.phase, REQUEUE, None)
  }

  /** determineResourceState; it never errs and never answers Unknown, so the Unknown handler's two
      fallbacks to Pending are not reached. */
  function DetermineResourceState(g: Setting, y: Sys, k: Kode): Decided {
    var f := FetchTemplates(g, y, k);
    if f.out.Bad? then Decided(f.y, f.k, Pending)
    else if f.k.generation != f.k.status.observedGeneration then Decided(f.y, f.k, Updating)
    else
      var r := R.CheckResourcesReady(g, f.y, f.k.spec, D.InitConfig(g.name, f.k.spec, f.out.value));
      if r.out.Bad? then Decided(r.y, f.k, Configuring)
      else Decided(r.y, f.k, if r.out.value then Active else Provisioning)
  }

  function HandleUnknown(g: Setting, y: Sys, k: Kode): Out {
    var m := Mark3(k, Indeterminate, StateUnknown, Indeterminate, StateUnknown, Indeterminate, StateUnknown, y.t);
    var u := UpdateStatus(g, y, m.status);
    if u.err.Some? then Out(u.y, m, Unknown, REQUEUE, None)
    else if m.deleting then Out(u.y, m, Deleting, REQUEUE, None)
    else
      var d := DetermineResourceState(g, u.y, m);
      var n := WithPhase(d.k, d.phase);
      var v := UpdateStatus(g, d.y, n.status);
      Out(v.y, n, if v.err.Some? then Unknown else d.phase, REQUEUE, None)
  }

  // ---- statemachine.go ----

  datatype Done = Done(y: Sys, result: Result, err: Option<Err>)

  function Handle(g: Setting, y: Sys, k: Kode): Out
    requires k.status.phase != Uninitialised
  {
    match k.status.phase
    case Pending => HandlePending(g, y, k)
    case Configuring => HandleConfiguring(g, y, k)
    case Provisioning => HandleProvisioning(g, y, k)
    case Active => HandleActive(g, y, k)
    case Updating => HandleUpdating(g, y, k)
    case Deleting => HandleDeleting(g, y, k)
    case Failed => HandleFailed(g, y, k)
    case Unknown => HandleUnknown(g, y, k)
  }

  /** The rest of HandleState once the handler for `ph` has left `o`. */
  function Advance(g: Setting, ph: Phase, o: Out): Done {
    if o.err.Some? then Done(o.y, Result(false, g.interval), o.err)
    else if o.phase != ph then
      var u := UpdateStatus(g, o.y, WithPhase(o.k, o.phase).status);
      Done(u.y, if u.err.Some? then Result(false, g.interval) else o.result, u.err)
    else Done(o.y, o.result, None)
  }

  function HandleState(g: Setting, y: Sys, k: Kode): Done {
    if k.status.phase == Uninitialised then Done(y, NO_REQUEUE, Some(NoHandler))
    else Advance(g, k.status.phase, Handle(g, y, k))
  }

  // ---- reconciler.go ----

  /** Reconcile after the generation gate: reset of the retry count, then the state machine. */
  function RunMachine(g: Setting, y: Sys, k: Kode): Done {
    var reset := k.status.phase != Failed && k.status.retryCount > 0;
    var m := if reset then k.(status := k.status.(retryCount := 0)) else k;
    var u := if reset then UpdateStatus(g, y, m.status) else Ack(y, None);
    if u.err.Some? then Done(u.y, REQUEUE, u.err)
    else
      var d := HandleState(g, u.y, m);
      Done(d.y, if d.err.Some? then REQUEUE else d.result, d.err)
  }

  /** Adding the finalizer and initialising. */
  function Initialise(g: Setting, y: Sys, k: Kode): Done {
    var a := AddFinalizer(g, y);
    if a.err.Some? then Done(a.y, Result(false, g.interval), a.err)
    else
      var u := UpdateStatus(g, a.y, k.status.(phase := Pending, observedGeneration := k.generation));
      Done(u.y, REQUEUE, u.err)
  }

  /** Reconcile after the deletion gate. */
  function AfterDeletionGate(g: Setting, y: Sys, k: Kode): Done {
    if !k.finalizer then Initialise(g, y, k)
    else if k.generation != k.status.observedGeneration then
      var u := HandleGenerationMismatch(g, y, k);
      Done(u.y, REQUEUE, u.err)
    else RunMachine(g, y, k)
  }

  function Reconcile(g: Setting, y: Sys): Done {
    var z := Enter(g, y);
    if !Up(g, y) then Done(z, NO_REQUEUE, Some(Refused))
    else if z.w.kode.None? then Done(z, NO_REQUEUE, None)
    else
      var k := z.w.kode.value;
      if !k.deleting then AfterDeletionGate(g, z, k)
      else if !k.finalizer then Done(z, NO_REQUEUE, None)
      else
        var m := WithPhase(k, Deleting);
        var u := UpdateStatus(g, z, m.status);
        if u.err.Some? then Done(u.y, REQUEUE, u.err) else AfterDeletionGate(g, u.y, m)
  }

  // ---- runs ----

  /** A run: reconciles of the Kode controller, and pauses in which only the others act. */
  datatype Event = ReconcileNow | Pause

  function Step(g: Setting, y: Sys, e: Event): Sys {
    match e
    case ReconcileNow => Reconcile(g, y).y
    case Pause => Enter(g, y)
  }

  function Run(g: Setting, y: Sys, events: seq<Event>): Sys
    decreases |events|
  {
    if events == [] then y else Run(g, Step(g, y, events[0]), events[1..])
  }
}

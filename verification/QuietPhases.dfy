/** One reconcile of a Kode in each phase, in a quiet cluster: the phase, the conditions, the error, the port, the
    count of attempts, the children and the result, each from what was there before. */
module QuietPhases {
  import opened KodeTypes
  import opened Cluster
  import opened Handlers
  import opened Steady
  import opened Updating
  import HR = HandlerRuns
  import A = Agreement
  import C = Conditions
  import D = Desired
  import HS = HandlerSafety
  import I = Invariants
  import R = Resources
  import Sa = Safety
  import T = Templates

  // ---- what a status tells ----

  predicate Shows(s: Status, ready: ConditionStatus, available: ConditionStatus, progressing: ConditionStatus) {
    C.Is(s.conditions, Ready, ready) && C.Is(s.conditions, Available, available) && C.Is(s.conditions, Progressing, progressing)
  }

  /** Of the status `before`, only phase, conditions, runtime class and error have changed. */
  predicate Keeps(s: Status, before: Status) {
    && s.observedGeneration == before.observedGeneration && s.kodeUrl == before.kodeUrl && s.kodePort == before.kodePort
    && s.retryCount == before.retryCount && s.deletionCycle == before.deletionCycle
  }

  /** The handler failed: the phase stays, all three conditions are False and the error is there; a nil
      dereference leaves them as they were. */
  predicate Reports(s: Status, before: Status, e: Err) {
    && s.phase == before.phase && Keeps(s, before)
    && if e == NilPointer then s.conditions == before.conditions && s.lastError == before.lastError
       else Shows(s, False, False, False) && s.lastError == Some(e)
  }

  /** The handler succeeded: the next phase, its conditions, no new error. */
  predicate Turns(s: Status, before: Status, next: Phase, ready: ConditionStatus, available: ConditionStatus, progressing: ConditionStatus) {
    s.phase == next && Shows(s, ready, available, progressing) && s.lastError == before.lastError && Keeps(s, before)
  }

  // ---- the common parts ----

  /** The copy with which a quiet reconcile calls its handler. */
  function Reset(k: Kode): Kode {
    if k.status.phase != Failed && k.status.retryCount > 0 then k.(status := k.status.(retryCount := 0)) else k
  }

  predicate Quietable(w: World) {
    && w.kode.Some? && w.kode.value.finalizer && !w.kode.value.deleting
    && w.kode.value.generation == w.kode.value.status.observedGeneration
  }

  lemma QuietEntry(g: Setting, y: Sys)
    requires Quiet(g) && Quietable(y.w)
    ensures var e := HR.HandlerEntry(g, y);
            e.Some? && e.value.k == Reset(y.w.kode.value) && e.value.y.w == y.w.(kode := Some(Reset(y.w.kode.value)))
  {
    A.EnterQuiet(g, y);
    var z := Enter(g, y);
    hide Enter, Quiet, Up, UpdateStatus;
    QuietSave(g, z, Reset(y.w.kode.value).status);
  }

  /** What a handler's end comes to: the copy's status is stored, with the next phase if there is one. */
  predicate Ended(o: Out, k: Kode) { o.k == k.(status := o.k.status) && o.k.status.phase == k.status.phase && o.y.w.kode == Some(o.k) }

  lemma QuietEnd(g: Setting, y: Sys, o: Out)
    requires Quiet(g) && Quietable(y.w) && Ended(o, Reset(y.w.kode.value)) && y.w.kode.value.status.phase != Uninitialised
    requires var e := HR.HandlerEntry(g, y); e.Some? && o == Handle(g, e.value.y, e.value.k) && e.value.k == Reset(y.w.kode.value)
    ensures var k := y.w.kode.value;
            var d := Reconcile(g, y);
            && d.err == o.err
            && d.y.w.kode == Some(k.(status := if o.err.None? then o.k.status.(phase := o.phase) else o.k.status))
            && d.y.w.children == o.y.w.children && (o.err.None? ==> d.result == o.result)
  {
    HR.EntryIs(g, y);
    var k := y.w.kode.value;
    QuietSave(g, o.y, o.k.status.(phase := o.phase));
    hide Quiet, Reconcile, HR.HandlerEntry, UpdateStatus, Handle;
  }

  lemma ErrorEnds(g: Setting, y: Sys, k: Kode, m: Kode, e: Err)
    requires Quiet(g) && y.w.kode == Some(m) && m == k.(status := m.status) && m.status.phase == k.status.phase
    requires Keeps(m.status, k.status) && m.status.conditions == k.status.conditions && m.status.lastError == k.status.lastError
    ensures var o := HandleReconcileError(g, y, m, e);
            Ended(o, k) && o.err == Some(e) && Reports(o.k.status, k.status, e) && o.y.w.children == y.w.children
  {
    hide Quiet, UpdateStatus, Mark3, C.Get;
    var q := Failing(m, e, y.t);
    Sa.Mark3Meaning(m, False, ReconciliationFailed, False, ReconciliationFailed, False, ReconciliationFailed, y.t);
    QuietSave(g, y, q.status);
  }

  lemma SavedEnds(g: Setting, y: Sys, k: Kode, m: Kode, q: Kode, next: Phase, result: Result)
    requires Quiet(g) && y.w.kode == Some(m) && m == k.(status := m.status) && q == m.(status := q.status) && q.status.phase == k.status.phase
    ensures var o := SaveAndReturn(g, y, q, next, result);
            Ended(o, k) && o.err.None? && o.k == q && o.phase == next && o.result == result && o.y.w.children == y.w.children
  {
    hide Quiet, UpdateStatus, HandleReconcileError;
    QuietSave(g, y, q.status);
  }

  /** Fetching in a quiet cluster: the template, with its runtime class noted, or the error. */
  lemma FetchEnds(g: Setting, y: Sys, k: Kode)
    requires Quiet(g) && y.w.kode == Some(k)
    ensures var f := FetchTemplates(g, y, k);
            && f.y.w.kode == Some(f.k) && f.y.w.children == y.w.children
            && f.k == k.(status := k.status.(runtime := f.k.status.runtime))
            && f.out == (match T.Visible(g.store, k.spec.templateRef) case Ok(t) => Ok(t) case Bad(e) => Bad(e))
            && (f.out.Ok? && T.IsContainerKind(k.spec.templateRef.kind) ==> f.k.status.runtime == Some(f.out.value.spec.runtimeClass))
  {
    hide Quiet, Enter, Up, UpdateStatus, T.Visible, T.IsContainerKind;
    A.EnterQuiet(g, y);
    var v := T.Visible(g.store, k.spec.templateRef);
    if v.Ok? {
      QuietSave(g, Enter(g, y), k.status.(runtime := Some(v.value.spec.runtimeClass)));
    }
  }

  // ---- Pending ----

  /** A Pending Kode is stored Configuring if and only if every init plugin has an image. */
  lemma PendingExactly(g: Setting, y: Sys)
    requires Quiet(g) && Quietable(y.w) && y.w.kode.value.status.phase == Pending
    ensures var k := y.w.kode.value;
            var d := Reconcile(g, y);
            var before := Reset(k).status;
            && d.y.w.kode.Some? && d.y.w.kode.value == k.(status := d.y.w.kode.value.status) && d.y.w.children == y.w.children
            && var s := d.y.w.kode.value.status;
            if forall i :: 0 <= i < |k.spec.initPlugins| ==> k.spec.initPlugins[i].image != ""
            then d.err.None? && d.result == REQUEUE && Turns(s, before, Configuring, False, False, True)
            else d.err == Some(Invalid) && Reports(s, before, Invalid)
  {
    QuietEntry(g, y);
    var e := HR.HandlerEntry(g, y).value;
    var k := e.k;
    PendingHandled(g, e.y, k);
    Dispatches(g, e.y, k);
    hide Quiet, HR.HandlerEntry, Reconcile, HandlePending, Handle, C.Get;
    QuietEnd(g, y, HandlePending(g, e.y, k));
  }

  lemma PendingHandled(g: Setting, y: Sys, k: Kode)
    requires Quiet(g) && y.w.kode == Some(k) && k.status.phase == Pending
    ensures var o := HandlePending(g, y, k);
            && Ended(o, k) && o.y.w.children == y.w.children
            && if forall i :: 0 <= i < |k.spec.initPlugins| ==> k.spec.initPlugins[i].image != ""
               then o.err.None? && o.phase == Configuring && o.result == REQUEUE
                    && Turns(o.k.status.(phase := Configuring), k.status, Configuring, False, False, True)
               else o.err == Some(Invalid) && Reports(o.k.status, k.status, Invalid)
  {
    hide Quiet, SaveAndReturn, HandleReconcileError, Mark3, C.Get;
    var m := Mark3(k, False, PendingConfiguration, False, PendingConfiguration, True, ConfiguringResources, y.t);
    Sa.Mark3Meaning(k, False, PendingConfiguration, False, PendingConfiguration, True, ConfiguringResources, y.t);
    SavedEnds(g, y, k, k, m, Configuring, REQUEUE);
    ErrorEnds(g, y, k, k, Invalid);
  }

  lemma Dispatches(g: Setting, y: Sys, k: Kode)
    requires k.status.phase != Uninitialised
    ensures k.status.phase == Pending ==> Handle(g, y, k) == HandlePending(g, y, k)
    ensures k.status.phase == Configuring ==> Handle(g, y, k) == HandleConfiguring(g, y, k)
    ensures k.status.phase == Provisioning ==> Handle(g, y, k) == HandleProvisioning(g, y, k)
    ensures k.status.phase == Active ==> Handle(g, y, k) == HandleActive(g, y, k)
    ensures k.status.phase == Updating ==> Handle(g, y, k) == HandleUpdating(g, y, k)
    ensures k.status.phase == Failed ==> Handle(g, y, k) == HandleFailed(g, y, k)
    ensures k.status.phase == Unknown ==> Handle(g, y, k) == HandleUnknown(g, y, k)
  {
    hide HandlePending, HandleConfiguring, HandleProvisioning, HandleActive, HandleUpdating, HandleFailed, HandleUnknown;
  }

  // ---- Configuring ----

  /** What Configuring comes to, as a function of the children: the apply replayed on values. */
  function AppliedAll(g: Setting, c: Children, spec: KodeSpec, cfg: D.Config): Outcome<Applied> {
    ApplyIn(g, Applied(Detected(g, c, cfg), cfg), spec, StaleParts(g, c, spec, cfg), R.ORDER)
  }

  /** Detection succeeds, what is stale is applied, and the result is valid. */
  predicate Configurable(g: Setting, c: Children, spec: KodeSpec, cfg: D.Config) {
    && Detectable(g, c, spec, cfg)
    && var o := AppliedAll(g, c, spec, cfg);
    && o.Ok? && A.ValidNow(g, o.value.c, spec, o.value.cfg)
  }

  /** The apply succeeds and leaves no claim under the Kode's name for it. */
  predicate OnlyClaimMissing(g: Setting, c: Children, spec: KodeSpec, cfg: D.Config) {
    && Detectable(g, c, spec, cfg) && AppliedAll(g, c, spec, cfg).Ok?
    && ClaimAt(AppliedAll(g, c, spec, cfg).value.c, D.ClaimName(g.name, spec)).None?
  }

  /** Validation dereferences nil only in a claim that is there. */
  lemma NoNilWithoutClaim(g: Setting, y: Sys, spec: KodeSpec, cfg: D.Config)
    requires Quiet(g)
    ensures ClaimAt(y.w.children, D.ClaimName(g.name, spec)).None? ==> R.ValidateConfiguration(g, y, spec, cfg).err != Some(NilPointer)
  {
    hide Quiet, Enter, Up, D.SecretValid, D.ServiceValid, D.SetValid, D.ValidateClaim, D.SecretName, D.ClaimName;
    A.EnterQuiet(g, y);
    var a := R.ValidateSecret(g, y, spec, cfg);
    A.EnterQuiet(g, a.y);
    var b := R.ValidateService(g, a.y, cfg);
    A.EnterQuiet(g, b.y);
    var c := R.ValidateSet(g, b.y, cfg);
    A.EnterQuiet(g, c.y);
  }

  lemma ConfiguringHandled(g: Setting, y: Sys, k: Kode)
    requires Quiet(g) && y.w.kode == Some(k) && k.status.phase == Configuring
    ensures var o := HandleConfiguring(g, y, k);
            var t := T.Visible(g.store, k.spec.templateRef);
            var c := y.w.children;
            && Ended(o, k)
            && (if t.Ok? && Configurable(g, c, k.spec, A.ConfigOf(g, k.spec)) then
                  && o.err.None? && o.phase == Provisioning && o.result == REQUEUE
                  && Turns(o.k.status.(phase := Provisioning), k.status, Provisioning, False, False, True)
                  && o.y.w.children == AppliedAll(g, c, k.spec, A.ConfigOf(g, k.spec)).value.c
                else o.err.Some? && Reports(o.k.status, k.status, o.err.value))
            && (t.Ok? && OnlyClaimMissing(g, c, k.spec, A.ConfigOf(g, k.spec)) ==> o.err != Some(NilPointer))
  {
    hide Quiet, SaveAndReturn, HandleReconcileError, Mark3, C.Get, FetchTemplates, R.DetectChanges, R.ApplyParts, R.ValidateConfiguration,
      D.InitConfig, T.Visible, Detectable, Detected, StaleParts, ApplyIn, A.ValidNow, D.ClaimName;
    FetchEnds(g, y, k);
    var f := FetchTemplates(g, y, k);
    if f.out.Bad? {
      ErrorEnds(g, f.y, k, f.k, f.out.err);
      return;
    }
    var cfg := A.ConfigOf(g, k.spec);
    ConfigSpec(g, k.spec);
    DetectionIs(g, f.y, k.spec, cfg);
    var d := R.DetectChanges(g, f.y, k.spec, cfg);
    if d.out.Bad? {
      ErrorEnds(g, d.y, k, f.k, d.out.err);
      return;
    }
    DetectionFinds(g, f.y, k.spec, cfg);
    ApplyEnds(g, d.y, k.spec, cfg, d.out.value, R.ORDER);
    var a := R.ApplyConfiguration(g, d.y, k.spec, cfg, d.out.value);
    if a.out.Bad? {
      ErrorEnds(g, a.y, k, f.k, a.out.err);
      return;
    }
    ValidatesQuietly(g, a.y, k.spec, a.out.value);
    var v := R.ValidateConfiguration(g, a.y, k.spec, a.out.value);
    if v.err.Some? {
      ErrorEnds(g, v.y, k, f.k, v.err.value);
      NoNilWithoutClaim(g, a.y, k.spec, a.out.value);
      return;
    }
    var m := Mark3(f.k, False, ConfiguringResources, False, ConfiguringResources, True, ConfiguringResources, v.y.t);
    Sa.Mark3Meaning(f.k, False, ConfiguringResources, False, ConfiguringResources, True, ConfiguringResources, v.y.t);
    SavedEnds(g, v.y, k, f.k, m, Provisioning, REQUEUE);
  }

  lemma ConfigSpec(g: Setting, spec: KodeSpec)
    requires T.Visible(g.store, spec.templateRef).Ok?
    ensures A.ConfigOf(g, spec).spec == spec
  {
    hide D.CreateLabels, T.Visible;
  }

  /** A Configuring Kode is stored Provisioning if and only if its template is there, detection succeeds, what is
      stale is applied, and the children are then valid; otherwise it stays Configuring with the error reported. */
  lemma ConfiguringExactly(g: Setting, y: Sys)
    requires Quiet(g) && Quietable(y.w) && y.w.kode.value.status.phase == Configuring
    ensures var k := y.w.kode.value;
            var d := Reconcile(g, y);
            var before := Reset(k).status;
            && d.y.w.kode.Some? && d.y.w.kode.value == k.(status := d.y.w.kode.value.status)
            && var s := d.y.w.kode.value.status;
            if T.Visible(g.store, k.spec.templateRef).Ok? && Configurable(g, y.w.children, k.spec, A.ConfigOf(g, k.spec))
            then
              && d.err.None? && d.result == REQUEUE && Turns(s, before, Provisioning, False, False, True)
              && d.y.w.children == AppliedAll(g, y.w.children, k.spec, A.ConfigOf(g, k.spec)).value.c
            else
              && d.err.Some? && Reports(s, before, d.err.value)
              && (T.Visible(g.store, k.spec.templateRef).Ok? && OnlyClaimMissing(g, y.w.children, k.spec, A.ConfigOf(g, k.spec)) ==>
                    d.err != Some(NilPointer))
  {
    hide Quiet, Reconcile, HandleConfiguring, Handle, C.Get, Configurable, AppliedAll, A.ConfigOf, T.Visible, OnlyClaimMissing;
    QuietEntry(g, y);
    var e := HR.HandlerEntry(g, y).value;
    hide HR.HandlerEntry;
    ConfiguringHandled(g, e.y, e.k);
    Dispatches(g, e.y, e.k);
    QuietEnd(g, y, HandleConfiguring(g, e.y, e.k));
  }

  // ---- Provisioning ----

  lemma ProvisioningHandled(g: Setting, y: Sys, k: Kode)
    requires Quiet(g) && y.w.kode == Some(k) && k.status.phase == Provisioning
    ensures var o := HandleProvisioning(g, y, k);
            var t := T.Visible(g.store, k.spec.templateRef);
            && Ended(o, k) && o.y.w.children == y.w.children
            && if t.Bad? then o.err.Some? && Reports(o.k.status, k.status, o.err.value)
               else if A.ReadyNow(g, y.w.children, k.spec, A.ConfigOf(g, k.spec)) then
                 && o.err.None? && o.phase == Active && o.result == NO_REQUEUE
                 && Turns(o.k.status.(phase := Active), k.status.(kodePort := t.value.spec.port), Active, True, True, False)
               else
                 && o.err.None? && o.phase == Provisioning && o.result == Result(false, g.interval)
                 && Turns(o.k.status, k.status, Provisioning, False, False, True)
  {
    hide Quiet, SaveAndReturn, HandleReconcileError, Mark3, C.Get, FetchTemplates, R.RunChecks, D.InitConfig, T.Visible, A.ReadyNow;
    FetchEnds(g, y, k);
    var f := FetchTemplates(g, y, k);
    if f.out.Bad? {
      ErrorEnds(g, f.y, k, f.k, f.out.err);
      return;
    }
    A.ReadyMeaning(g, f.y, k.spec, A.ConfigOf(g, k.spec));
    var r := R.CheckResourcesReady(g, f.y, k.spec, A.ConfigOf(g, k.spec));
    var a := Mark3(f.k, False, StillProvisioning, False, StillProvisioning, True, StillProvisioning, r.y.t);
    var b := Mark3(f.k, True, ResourcesReady, True, ResourcesReady, False, Provisioned, r.y.t);
    Sa.Mark3Meaning(f.k, False, StillProvisioning, False, StillProvisioning, True, StillProvisioning, r.y.t);
    Sa.Mark3Meaning(f.k, True, ResourcesReady, True, ResourcesReady, False, Provisioned, r.y.t);
    SavedEnds(g, r.y, k, f.k, a, Provisioning, Result(false, g.interval));
    SavedEnds(g, r.y, k, f.k, b.(status := b.status.(kodePort := f.out.value.spec.port)), Active, NO_REQUEUE);
  }

  /** A Provisioning Kode is stored Active, with the template's port, if and only if its template is there and its
      children are ready; otherwise it stays, with the error or to be polled after the interval. */
  lemma ProvisioningExactly(g: Setting, y: Sys)
    requires Quiet(g) && Quietable(y.w) && y.w.kode.value.status.phase == Provisioning
    ensures var k := y.w.kode.value;
            var d := Reconcile(g, y);
            var t := T.Visible(g.store, k.spec.templateRef);
            var before := Reset(k).status;
            && d.y.w.children == y.w.children
            && d.y.w.kode.Some? && d.y.w.kode.value == k.(status := d.y.w.kode.value.status)
            && var s := d.y.w.kode.value.status;
            if t.Bad? then d.err.Some? && Reports(s, before, d.err.value)
            else if A.ReadyNow(g, y.w.children, k.spec, A.ConfigOf(g, k.spec)) then
              d.err.None? && d.result == NO_REQUEUE && Turns(s, before.(kodePort := t.value.spec.port), Active, True, True, False)
            else d.err.None? && d.result == Result(false, g.interval) && Turns(s, before, Provisioning, False, False, True)
  {
    hide Quiet, Reconcile, HandleProvisioning, Handle, C.Get, T.Visible, A.ReadyNow, A.ConfigOf;
    QuietEntry(g, y);
    var e := HR.HandlerEntry(g, y).value;
    hide HR.HandlerEntry;
    ProvisioningHandled(g, e.y, e.k);
    Dispatches(g, e.y, e.k);
    QuietEnd(g, y, HandleProvisioning(g, e.y, e.k));
  }

  // ---- Active ----

  lemma UnreadyHandled(g: Setting, y: Sys, k: Kode)
    requires Quiet(g) && y.w.kode == Some(k) && k.status.phase == Active && k.generation == k.status.observedGeneration
    ensures var o := HandleActive(g, y, k);
            var t := T.Visible(g.store, k.spec.templateRef);
            && (t.Bad? ==> Ended(o, k) && o.y.w.children == y.w.children && o.err.Some? && Reports(o.k.status, k.status, o.err.value))
            && (t.Ok? && !A.ReadyNow(g, y.w.children, k.spec, A.ConfigOf(g, k.spec)) ==>
                  && Ended(o, k) && o.y.w.children == y.w.children
                  && o.err.None? && o.phase == Updating && o.result == Result(false, g.interval)
                  && Turns(o.k.status.(phase := Updating), k.status, Updating, False, False, True))
  {
    hide Quiet, SaveAndReturn, StayActive, HandleReconcileError, UpdateStatus, Mark3, Mark2, C.Get, FetchTemplates, R.RunChecks, D.InitConfig, T.Visible,
      A.ReadyNow;
    FetchEnds(g, y, k);
    var f := FetchTemplates(g, y, k);
    if f.out.Bad? {
      ErrorEnds(g, f.y, k, f.k, f.out.err);
      return;
    }
    A.ReadyMeaning(g, f.y, k.spec, A.ConfigOf(g, k.spec));
    var r := R.CheckResourcesReady(g, f.y, k.spec, A.ConfigOf(g, k.spec));
    var m := Mark3(f.k, False, ResourcesNotReady, False, ResourcesNotReady, True, ResourcesNotReady, r.y.t);
    Sa.Mark3Meaning(f.k, False, ResourcesNotReady, False, ResourcesNotReady, True, ResourcesNotReady, r.y.t);
    SavedEnds(g, r.y, k, f.k, m, Updating, Result(false, g.interval));
  }

  /** An Active Kode, generation observed, is stored Updating if and only if its template is there and its children
      are not ready; Ready and Available are then False and Progressing True. With ready children it stays Active
      with the conditions of a healthy Kode and the template's port. Without template it stays Active with the error. */
  lemma ActiveExactly(g: Setting, y: Sys)
    requires Quiet(g) && Quietable(y.w) && y.w.kode.value.status.phase == Active
    requires y.w.kode.value.status.retryCount == 0 && I.HasAll(y.w.kode.value.status)
    ensures var k := y.w.kode.value;
            var d := Reconcile(g, y);
            var t := T.Visible(g.store, k.spec.templateRef);
            && d.y.w.children == y.w.children
            && d.y.w.kode.Some? && d.y.w.kode.value == k.(status := d.y.w.kode.value.status)
            && var s := d.y.w.kode.value.status;
            if t.Bad? then d.err.Some? && Reports(s, k.status, d.err.value)
            else if A.ReadyNow(g, y.w.children, k.spec, A.ConfigOf(g, k.spec)) then
              && d.err.None? && d.result == Result(false, g.longInterval)
              && s.phase == Active && Shows(s, True, True, False) && s.lastError == k.status.lastError
              && Keeps(s, k.status.(kodePort := t.value.spec.port))
            else d.err.None? && d.result == Result(false, g.interval) && Turns(s, k.status, Updating, False, False, True)
  {
    hide Quiet, Reconcile, HandleActive, Handle, C.Get, T.Visible, A.ReadyNow, I.HasAll, RefreshAll, A.ConfigOf;
    QuietEntry(g, y);
    var e := HR.HandlerEntry(g, y).value;
    hide HR.HandlerEntry;
    var k := y.w.kode.value;
    if T.Visible(g.store, k.spec.templateRef).Ok? && A.ReadyNow(g, y.w.children, k.spec, A.ConfigOf(g, k.spec)) {
      var now := ActiveReconciles(g, y);
      HealthyTells(g, k, now);
    } else {
      UnreadyHandled(g, e.y, e.k);
      Dispatches(g, e.y, e.k);
      QuietEnd(g, y, HandleActive(g, e.y, e.k));
    }
  }

  lemma HealthyTells(g: Setting, k: Kode, now: nat)
    requires ActiveCopy(g, k)
    ensures var s := RefreshAll(Filled(g, k), now).s;
            && s.phase == Active && Shows(s, True, True, False) && s.lastError == k.status.lastError
            && Keeps(s, k.status.(kodePort := T.Visible(g.store, k.spec.templateRef).value.spec.port))
  {
    FilledHasAll(g, k);
    HS.RefreshAllMeaning(Filled(g, k), now);
    hide C.Get, RefreshAll, T.Visible;
  }

  // ---- Updating ----

  /** Ready and Progressing are set; what the Kode says of Available stays. */
  predicate Half(s: Status, before: Status, next: Phase, ready: ConditionStatus, progressing: ConditionStatus) {
    && s.phase == next && C.Is(s.conditions, Ready, ready) && C.Is(s.conditions, Progressing, progressing)
    && C.Get(s.conditions, Available) == C.Get(before.conditions, Available) && s.lastError == before.lastError && Keeps(s, before)
  }

  lemma Mark2Halves(k: Kode, c: ConditionStatus, wc: Reason, a: ConditionStatus, wa: Reason, now: nat)
    ensures var m := Mark2(k, c, wc, a, wa, now);
            m == k.(status := m.status) && Half(m.status, k.status, k.status.phase, a, c)
  {
    var cs := k.status.conditions;
    C.SetMeaning(cs, Condition(Progressing, c, wc, now));
    C.SetMeaning(C.Set(cs, Condition(Progressing, c, wc, now)), Condition(Ready, a, wa, now));
    hide C.Set, C.Get;
  }

  /** What is left of the Updating handler once the children have been applied and are valid. */
  lemma FinishEnds(g: Setting, y: Sys, k: Kode, m: Kode, port: int, ready: bool)
    requires Quiet(g) && y.w.kode == Some(m) && m == k.(status := k.status.(runtime := m.status.runtime)) && k.status.phase == Updating
    requires k.generation == k.status.observedGeneration
    ensures var o := FinishUpdate(g, y, m, port, ready);
            && Ended(o, k) && o.err.None? && o.y.w.children == y.w.children
            && if ready then o.phase == Active && o.result == NO_REQUEUE
                             && Turns(o.k.status.(phase := Active), k.status.(kodePort := port), Active, True, True, False)
               else o.phase == Updating && o.result == Result(false, g.interval) && Half(o.k.status, k.status, Updating, False, True)
  {
    hide Quiet, SaveAndReturn, Mark2, Mark3, C.Get;
    if ready {
      var n := m.(status := m.status.(observedGeneration := m.generation, kodePort := port));
      var q := Mark3(n, True, UpdateComplete, True, ServiceAvailable, False, UpdateComplete, y.t);
      Sa.Mark3Meaning(n, True, UpdateComplete, True, ServiceAvailable, False, UpdateComplete, y.t);
      SavedEnds(g, y, k, m, q, Active, NO_REQUEUE);
    } else {
      var q := Mark2(m, True, UpdateInProgress, False, UpdateInProgress, y.t);
      Mark2Halves(m, True, UpdateInProgress, False, UpdateInProgress, y.t);
      SavedEnds(g, y, k, m, q, Updating, Result(false, g.interval));
    }
  }

  /** How a quiet reconcile of an Updating Kode ends. */
  predicate Updated(g: Setting, c: Children, k: Kode, err: Option<Err>, result: Result, s: Status, left: Children) {
    var t := T.Visible(g.store, k.spec.templateRef);
    if t.Bad? || !Detectable(g, c, k.spec, A.ConfigOf(g, k.spec)) then err.Some? && Reports(s, k.status, err.value)
    else
      var cfg := A.ConfigOf(g, k.spec);
      if StaleParts(g, c, k.spec, cfg) == {} then err.None? && result == REQUEUE && Half(s, k.status, Active, True, False) && left == c
      else if !Configurable(g, c, k.spec, cfg) then err.Some? && Reports(s, k.status, err.value)
      else
        var o := AppliedAll(g, c, k.spec, cfg).value;
        && err.None? && left == o.c
        && if A.ReadyNow(g, o.c, k.spec, o.cfg) then result == NO_REQUEUE && Turns(s, k.status.(kodePort := t.value.spec.port), Active, True, True, False)
           else result == Result(false, g.interval) && Half(s, k.status, Updating, False, True)
  }

  lemma DetectedHandled(g: Setting, y: Sys, k: Kode, m: Kode, t: Template)
    requires Quiet(g) && y.w.kode == Some(m) && m == k.(status := k.status.(runtime := m.status.runtime)) && k.status.phase == Updating
    requires k.generation == k.status.observedGeneration && T.Visible(g.store, k.spec.templateRef) == Ok(t)
    ensures var o := AfterFetch(g, y, m, t);
            Ended(o, k) && Updated(g, y.w.children, k, o.err, o.result, if o.err.None? then o.k.status.(phase := o.phase) else o.k.status, o.y.w.children)
  {
    hide Quiet, SaveAndReturn, HandleReconcileError, Mark2, C.Get, R.DetectChanges, R.ApplyParts, R.ValidateConfiguration, R.RunChecks,
      D.InitConfig, T.Visible, Detectable, Detected, StaleParts, ApplyIn, A.ValidNow, A.ReadyNow, FinishUpdate;
    var cfg := A.ConfigOf(g, k.spec);
    ConfigSpec(g, k.spec);
    DetectionIs(g, y, k.spec, cfg);
    var d := R.DetectChanges(g, y, k.spec, cfg);
    if d.out.Bad? {
      ErrorEnds(g, d.y, k, m, d.out.err);
      return;
    }
    DetectionFinds(g, y, k.spec, cfg);
    if d.out.value == {} {
      NothingStale(g, y.w.children, k.spec, cfg);
      var n := m.(status := m.status.(observedGeneration := m.generation));
      Mark2Halves(n, False, NoChanges, True, ResourcesHealthy, d.y.t);
      SavedEnds(g, d.y, k, m, Mark2(n, False, NoChanges, True, ResourcesHealthy, d.y.t), Active, REQUEUE);
      return;
    }
    ApplyEnds(g, d.y, k.spec, cfg, d.out.value, R.ORDER);
    var a := R.ApplyConfiguration(g, d.y, k.spec, cfg, d.out.value);
    if a.out.Bad? {
      ErrorEnds(g, a.y, k, m, a.out.err);
      return;
    }
    ValidatesQuietly(g, a.y, k.spec, a.out.value);
    var v := R.ValidateConfiguration(g, a.y, k.spec, a.out.value);
    if v.err.Some? {
      ErrorEnds(g, v.y, k, m, v.err.value);
      return;
    }
    A.ReadyMeaning(g, v.y, k.spec, a.out.value);
    var r := R.CheckResourcesReady(g, v.y, k.spec, a.out.value);
    FinishEnds(g, r.y, k, m, t.spec.port, r.out.value);
  }

  lemma UpdatingHandled(g: Setting, y: Sys, k: Kode)
    requires Quiet(g) && y.w.kode == Some(k) && k.status.phase == Updating && k.generation == k.status.observedGeneration
    ensures var o := HandleUpdating(g, y, k);
            Ended(o, k) && Updated(g, y.w.children, k, o.err, o.result, if o.err.None? then o.k.status.(phase := o.phase) else o.k.status, o.y.w.children)
  {
    hide Quiet, HandleUpdating, HandleReconcileError, FetchTemplates, AfterFetch, T.Visible, C.Get, Detectable, StaleParts, Configurable, AppliedAll,
      A.ConfigOf, A.ReadyNow;
    FetchEnds(g, y, k);
    HandlerSplits(g, y, k);
    var f := FetchTemplates(g, y, k);
    if f.out.Bad? {
      ErrorEnds(g, f.y, k, f.k, f.out.err);
      FetchFails(g, y, k);
    } else {
      DetectedHandled(g, f.y, k, f.k, f.out.value);
    }
  }

  lemma FetchFails(g: Setting, y: Sys, k: Kode)
    ensures var f := FetchTemplates(g, y, k); f.out.Bad? ==> HandleUpdating(g, y, k) == HandleReconcileError(g, f.y, f.k, f.out.err)
  {
    hide FetchTemplates, HandleReconcileError;
  }

  /** An Updating Kode, with everything it is left with: without template, without a detection, or with an apply or
      a validation that fails, it stays Updating with the error; with nothing stale it is Active and Ready, whatever
      its children are; otherwise the apply and then readiness decide, and only then is the port the template's. */
  lemma UpdatingExactly(g: Setting, y: Sys)
    requires Quiet(g) && Quietable(y.w) && y.w.kode.value.status.phase == Updating
    ensures var k := y.w.kode.value;
            var d := Reconcile(g, y);
            && d.y.w.kode.Some? && d.y.w.kode.value == k.(status := d.y.w.kode.value.status)
            && Updated(g, y.w.children, Reset(k), d.err, d.result, d.y.w.kode.value.status, d.y.w.children)
  {
    hide Quiet, Reconcile, HandleUpdating, Handle, C.Get, Configurable, AppliedAll, A.ConfigOf, T.Visible, Detectable, StaleParts, A.ReadyNow;
    QuietEntry(g, y);
    var e := HR.HandlerEntry(g, y).value;
    hide HR.HandlerEntry;
    UpdatingHandled(g, e.y, e.k);
    Dispatches(g, e.y, e.k);
    QuietEnd(g, y, HandleUpdating(g, e.y, e.k));
  }

  // ---- Failed ----

  lemma FailedHandled(g: Setting, y: Sys, k: Kode)
    requires Quiet(g) && y.w.kode == Some(k) && k.status.phase == Failed && k.generation == k.status.observedGeneration
    ensures var o := HandleFailed(g, y, k);
            var t := T.Visible(g.store, k.spec.templateRef);
            && Ended(o, k) && o.y.w.children == y.w.children && o.err.None?
            && if k.status.retryCount >= 5
               then o.phase == Failed && o.result == Result(false, g.longInterval) && Turns(o.k.status, k.status, Failed, False, False, False)
               else
                 && o.result == REQUEUE
                 && o.phase == (if t.Ok? && !A.ReadyNow(g, y.w.children, k.spec, A.ConfigOf(g, k.spec)) then Provisioning else Pending)
                 && Turns(o.k.status, k.status.(retryCount := k.status.retryCount + 1, lastError := None), Failed, False, False, True)
  {
    hide Quiet, UpdateStatus, Mark3, C.Get, FetchTemplates, R.RunChecks, D.InitConfig, T.Visible, A.ReadyNow;
    if k.status.retryCount >= MAX_RETRIES {
      var m := Mark3(k, False, MaxRetriesExceeded, False, MaxRetriesExceeded, False, MaxRetriesExceeded, y.t);
      Sa.Mark3Meaning(k, False, MaxRetriesExceeded, False, MaxRetriesExceeded, False, MaxRetriesExceeded, y.t);
      QuietSave(g, y, m.status);
    } else {
      var m := Attempting(k, y.t);
      Sa.Mark3Meaning(k, False, AttemptingRecovery, False, AttemptingRecovery, True, AttemptingRecovery, y.t);
      QuietSave(g, y, m.status);
      var u := UpdateStatus(g, y, m.status);
      FetchEnds(g, u.y, m);
      var f := FetchTemplates(g, u.y, m);
      if f.out.Ok? { A.ReadyMeaning(g, f.y, k.spec, A.ConfigOf(g, k.spec)); }
    }
  }

  /** A Failed Kode with attempts left is stored Provisioning if and only if its template is there and its children
      are not ready, and Pending otherwise, with one attempt more and its error cleared; without attempts left it
      stays Failed, all three conditions False. */
  lemma FailedExactly(g: Setting, y: Sys)
    requires Quiet(g) && Quietable(y.w) && y.w.kode.value.status.phase == Failed
    ensures var k := y.w.kode.value;
            var d := Reconcile(g, y);
            var t := T.Visible(g.store, k.spec.templateRef);
            && d.err.None? && d.y.w.children == y.w.children
            && d.y.w.kode.Some? && d.y.w.kode.value == k.(status := d.y.w.kode.value.status)
            && var s := d.y.w.kode.value.status;
            if k.status.retryCount >= 5 then d.result == Result(false, g.longInterval) && Turns(s, k.status, Failed, False, False, False)
            else
              d.result == REQUEUE
              && Turns(s, k.status.(retryCount := k.status.retryCount + 1, lastError := None),
                       if t.Ok? && !A.ReadyNow(g, y.w.children, k.spec, A.ConfigOf(g, k.spec)) then Provisioning else Pending,
                       False, False, True)
  {
    hide Quiet, Reconcile, HandleFailed, Handle, C.Get, T.Visible, A.ReadyNow, A.ConfigOf;
    QuietEntry(g, y);
    var e := HR.HandlerEntry(g, y).value;
    hide HR.HandlerEntry;
    FailedHandled(g, e.y, e.k);
    Dispatches(g, e.y, e.k);
    QuietEnd(g, y, HandleFailed(g, e.y, e.k));
  }

  // ---- Unknown ----

  lemma UnknownHandled(g: Setting, y: Sys, k: Kode)
    requires Quiet(g) && y.w.kode == Some(k) && k.status.phase == Unknown && k.generation == k.status.observedGeneration && !k.deleting
    ensures var o := HandleUnknown(g, y, k);
            var t := T.Visible(g.store, k.spec.templateRef);
            && o.err.None? && o.result == REQUEUE && o.y.w.children == y.w.children && o.y.w.kode == Some(o.k) && o.k == k.(status := o.k.status)
            && o.phase == (if t.Bad? then Pending else if A.ReadyNow(g, y.w.children, k.spec, A.ConfigOf(g, k.spec)) then Active else Provisioning)
            && Turns(o.k.status, k.status, o.phase, Indeterminate, Indeterminate, Indeterminate)
  {
    hide Quiet, UpdateStatus, Mark3, C.Get, FetchTemplates, R.RunChecks, D.InitConfig, T.Visible, A.ReadyNow;
    var m := Mark3(k, Indeterminate, StateUnknown, Indeterminate, StateUnknown, Indeterminate, StateUnknown, y.t);
    Sa.Mark3Meaning(k, Indeterminate, StateUnknown, Indeterminate, StateUnknown, Indeterminate, StateUnknown, y.t);
    QuietSave(g, y, m.status);
    var u := UpdateStatus(g, y, m.status);
    FetchEnds(g, u.y, m);
    var f := FetchTemplates(g, u.y, m);
    if f.out.Ok? { A.ReadyMeaning(g, f.y, k.spec, A.ConfigOf(g, k.spec)); }
    var d := DetermineResourceState(g, u.y, m);
    QuietSave(g, d.y, WithPhase(d.k, d.phase).status);
  }

  /** An Unknown Kode is stored Pending without template, else Active or Provisioning by its children's readiness. */
  lemma UnknownExactly(g: Setting, y: Sys)
    requires Quiet(g) && Quietable(y.w) && y.w.kode.value.status.phase == Unknown
    ensures var k := y.w.kode.value;
            var d := Reconcile(g, y);
            var t := T.Visible(g.store, k.spec.templateRef);
            && d.err.None? && d.result == REQUEUE && d.y.w.children == y.w.children
            && d.y.w.kode.Some? && d.y.w.kode.value == k.(status := d.y.w.kode.value.status)
            && Turns(d.y.w.kode.value.status, Reset(k).status,
                     if t.Bad? then Pending else if A.ReadyNow(g, y.w.children, k.spec, A.ConfigOf(g, k.spec)) then Active else Provisioning,
                     Indeterminate, Indeterminate, Indeterminate)
  {
    hide Quiet, Reconcile, HandleUnknown, Handle, C.Get, T.Visible, A.ReadyNow, A.ConfigOf, UpdateStatus;
    QuietEntry(g, y);
    var e := HR.HandlerEntry(g, y).value;
    HR.EntryIs(g, y);
    hide HR.HandlerEntry;
    UnknownHandled(g, e.y, e.k);
    Dispatches(g, e.y, e.k);
    var o := HandleUnknown(g, e.y, e.k);
    QuietSave(g, o.y, WithPhase(o.k, o.phase).status);
  }

  // ---- before the handlers ----

  /** A Kode without its finalizer gets it and is Pending with its generation observed. */
  lemma NewExactly(g: Setting, y: Sys)
    requires Quiet(g) && y.w.kode.Some? && !y.w.kode.value.finalizer && !y.w.kode.value.deleting
    ensures var k := y.w.kode.value;
            var d := Reconcile(g, y);
            && d.err.None? && d.result == REQUEUE
            && d.y.w == y.w.(kode := Some(k.(finalizer := true, status := k.status.(phase := Pending, observedGeneration := k.generation))))
  {
    hide Quiet, Enter, Up, UpdateStatus;
    A.EnterQuiet(g, y);
    var z := Enter(g, y);
    A.EnterQuiet(g, z);
    QuietSave(g, AddFinalizer(g, z).y, y.w.kode.value.status.(phase := Pending, observedGeneration := y.w.kode.value.generation));
  }

  /** A changed spec is noticed before the handler: Updating, with the generation observed. */
  lemma MismatchExactly(g: Setting, y: Sys)
    requires Quiet(g) && y.w.kode.Some? && y.w.kode.value.finalizer && !y.w.kode.value.deleting
    requires y.w.kode.value.generation != y.w.kode.value.status.observedGeneration && y.w.kode.value.status.phase != Deleting
    ensures var k := y.w.kode.value;
            var d := Reconcile(g, y);
            && d.err.None? && d.result == REQUEUE && d.y.w.children == y.w.children
            && d.y.w.kode.Some? && d.y.w.kode.value == k.(status := d.y.w.kode.value.status)
            && Turns(d.y.w.kode.value.status, k.status.(observedGeneration := k.generation), Updating, False, False, True)
  {
    hide Quiet, Enter, Up, UpdateStatus, Mark3, C.Get;
    A.EnterQuiet(g, y);
    var z := Enter(g, y);
    var m := WithPhase(y.w.kode.value.(status := y.w.kode.value.status.(observedGeneration := y.w.kode.value.generation)), Updating);
    Sa.Mark3Meaning(m, False, GenerationMismatch, False, GenerationMismatch, True, GenerationMismatch, z.t);
    QuietSave(g, z, Mark3(m, False, GenerationMismatch, False, GenerationMismatch, True, GenerationMismatch, z.t).status);
  }

  // ---- Deleting ----

  lemma {:induction false} AbsentQuietly(g: Setting, y: Sys, keys: seq<Key>)
    requires Quiet(g)
    ensures var r := R.CheckAbsent(g, y, keys); r.y.w == y.w && r.out == Ok(forall key :: key in keys ==> !Exists(y.w.children, key))
    decreases |keys|
  {
    hide Quiet, Enter, Up, Exists;
    if keys != [] {
      A.EnterQuiet(g, y);
      AbsentQuietly(g, Enter(g, y), keys[1..]);
      assert forall key :: key in keys <==> key == keys[0] || key in keys[1..];
    }
  }

  lemma {:induction false} DeletesQuietly(g: Setting, y: Sys, spec: KodeSpec, keys: seq<Key>, initiated: bool)
    requires Quiet(g)
    ensures var r := R.DeleteKeys(g, y, spec, keys, initiated);
            && r.y.w.kode == y.w.kode && r.out.Ok? && (initiated || (keys != [] && R.ShouldDelete(spec, keys[0])) ==> r.out.value)
    decreases |keys|
  {
    hide Quiet, Enter, Up, Terminate, R.ShouldDelete;
    if keys != [] {
      A.EnterQuiet(g, y);
      var z := Enter(g, y);
      if R.ShouldDelete(spec, keys[0]) {
        DeletesQuietly(g, PutChildren(z, Terminate(z.w.children, keys[0]), {}), spec, keys[1..], true);
      } else {
        DeletesQuietly(g, y, spec, keys[1..], initiated);
      }
    }
  }

  lemma DeletingHandled(g: Setting, y: Sys, k: Kode)
    requires Quiet(g) && y.w.kode == Some(k) && k.status.phase == Deleting && k.finalizer && k.deleting
    ensures var o := HandleDeleting(g, y, k);
            && o.err.None? && o.phase == Deleting
            && if forall key :: key in R.RequiredAbsent(g, k.spec) ==> !Exists(y.w.children, key)
               then o.y.w.kode.None? && o.y.w.children == y.w.children && o.result == NO_REQUEUE
               else
                 && Ended(o, k) && o.result == Result(false, if k.status.deletionCycle == 0 then 1 else g.interval)
                 && Turns(o.k.status, k.status.(deletionCycle := k.status.deletionCycle + 1), Deleting, False, False, True)
  {
    hide Quiet, Enter, Up, UpdateStatus, HandleReconcileError, Mark3, C.Get, R.RequiredAbsent, R.CheckAbsent, R.DeleteKeys, Exists;
    var m := Mark3(k, False, DeletingResource, False, DeletingResource, True, DeletingResource, y.t);
    Sa.Mark3Meaning(k, False, DeletingResource, False, DeletingResource, True, DeletingResource, y.t);
    QuietSave(g, y, m.status);
    var u := UpdateStatus(g, y, m.status);
    AbsentQuietly(g, u.y, R.RequiredAbsent(g, k.spec));
    var c := R.CheckResourcesDeleted(g, u.y, m.spec);
    A.EnterQuiet(g, c.y);
    var n := m.(status := m.status.(deletionCycle := m.status.deletionCycle + 1));
    DeletesQuietly(g, c.y, n.spec, R.CleanupKeys(g, n.spec), false);
    var d := R.Cleanup(g, c.y, n.spec);
    if k.status.deletionCycle == 0 {
      QuietSave(g, d.y, n.status);
    } else {
      QuietSave(g, c.y, n.status);
    }
  }

  /** The copy with which the deleting handler is called. */
  function Departing(k: Kode): Kode { k.(status := k.status.(phase := Deleting, retryCount := 0)) }

  lemma DeletingEntry(g: Setting, y: Sys)
    requires Quiet(g) && y.w.kode.Some? && y.w.kode.value.deleting && y.w.kode.value.finalizer
    requires y.w.kode.value.generation == y.w.kode.value.status.observedGeneration && y.w.kode.value.status.retryCount >= 0
    ensures var e := HR.HandlerEntry(g, y);
            e.Some? && e.value.k == Departing(y.w.kode.value) && e.value.y.w == y.w.(kode := Some(Departing(y.w.kode.value)))
  {
    A.EnterQuiet(g, y);
    var z := Enter(g, y);
    hide Enter, Quiet, Up, UpdateStatus;
    var k := WithPhase(y.w.kode.value, Deleting);
    QuietSave(g, z, k.status);
    QuietSave(g, UpdateStatus(g, z, k.status).y, Departing(y.w.kode.value).status);
  }

  /** A deleting Kode, generation observed: it is let go, with its children as they are, if and only if all that
      is required absent is absent; otherwise it is Deleting with one cycle more, to be looked at again after a
      second the first time and after the interval from then on. */
  lemma DeletingExactly(g: Setting, y: Sys)
    requires Quiet(g) && y.w.kode.Some? && y.w.kode.value.deleting && y.w.kode.value.finalizer
    requires y.w.kode.value.generation == y.w.kode.value.status.observedGeneration && y.w.kode.value.status.retryCount >= 0
    ensures var k := y.w.kode.value;
            var d := Reconcile(g, y);
            && d.err.None?
            && if forall key :: key in R.RequiredAbsent(g, k.spec) ==> !Exists(y.w.children, key)
               then d.y.w.kode.None? && d.y.w.children == y.w.children && d.result == NO_REQUEUE
               else
                 && d.y.w.kode.Some? && d.y.w.kode.value == k.(status := d.y.w.kode.value.status)
                 && d.result == Result(false, if k.status.deletionCycle == 0 then 1 else g.interval)
                 && Turns(d.y.w.kode.value.status, Departing(k).status.(deletionCycle := k.status.deletionCycle + 1), Deleting, False, False, True)
  {
    hide Quiet, Reconcile, HandleDeleting, Handle, C.Get, R.RequiredAbsent, Exists;
    DeletingEntry(g, y);
    var e := HR.HandlerEntry(g, y).value;
    HR.EntryIs(g, y);
    hide HR.HandlerEntry;
    DeletingHandled(g, e.y, e.k);
    assert Handle(g, e.y, e.k) == HandleDeleting(g, e.y, e.k) by { DispatchesDeleting(g, e.y, e.k); }
  }

  lemma DispatchesDeleting(g: Setting, y: Sys, k: Kode)
    requires k.status.phase == Deleting
    ensures Handle(g, y, k) == HandleDeleting(g, y, k)
  {
    hide HandleDeleting;
  }
}

/** What a whole reconcile stores, and what every run keeps. */
module ReconcileSafety {
  import opened KodeTypes
  import opened Cluster
  import opened Invariants
  import opened Handlers
  import opened Safety
  import opened HandlerSafety
  import C = Conditions
  import D = Desired
  import R = Resources
  import T = Templates

  /** Storing a status that suits the stored object. */
  lemma StoreSuitable(g: Setting, s0: KodeSpec, w: World, s: Status)
    requires Inv(g, s0, w) && StatusOk(s)
    requires s.phase != Uninitialised
    requires w.kode.Some? ==> s.observedGeneration <= w.kode.value.generation && (s.phase == Deleting ==> w.kode.value.deleting)
    requires KeepsRef(g, s0) ==> Published(g, s0, w, s)
    ensures Inv(g, s0, StoreStatus(w, s))
  {
    hide StatusOk, KeepsNames, KeepsRef, SameNames, Exists, IsOwn, OwnUnder, ThePort, TheUrl, R.RequiredAbsent;
  }

  /** The state machine's own write of the next phase. */
  lemma AdvanceKeeps(g: Setting, s0: KodeSpec, y: Sys, k: Kode, next: Phase, past: seq<Status>, ph: Phase)
    requires Holds(g, s0, y, k, past, ph) && Allowed(ph, next) && next != ph
    requires Settled(next) ==> HasAll(k.status)
    ensures var u := UpdateStatus(g, y, WithPhase(k, next).status);
            && Inv(g, s0, u.y.w)
            && u.y.log == (if u.err.None? then y.log + [WithPhase(k, next).status] else y.log)
  {
    EnterHolds(g, s0, y, k, past, ph);
    var z := Enter(g, y);
    assert StatusOk(WithPhase(k, next).status) by { hide Inv, HasAll; }
    StoreSuitable(g, s0, z.w, WithPhase(k, next).status) by { hide Inv, StatusOk; }
    hide Inv, Enter, StatusOk, Published, KeepsNames, KeepsRef;
  }

  // ---- the Unknown handler writes the phase itself ----

  ghost predicate UnknownLog(log: seq<Status>, past: seq<Status>, generation: int) {
    && past <= log
    && forall i :: |past| <= i < |log| ==>
         && (log[i].phase == Unknown || Allowed(Unknown, log[i].phase))
         && log[i].observedGeneration == generation && log[i].retryCount == 0
  }

  lemma DeterminedHolds(g: Setting, s0: KodeSpec, y: Sys, k: Kode, past: seq<Status>)
    requires Holds(g, s0, y, k, past, Unknown)
    ensures var d := DetermineResourceState(g, y, k);
            && Holds(g, s0, d.y, d.k, past, Unknown)
            && d.k == k.(status := k.status.(runtime := d.k.status.runtime))
            && (d.phase == Pending || d.phase == Configuring || d.phase == Provisioning || d.phase == Active)
  {
    hide Holds, FetchTemplates, R.CheckResourcesReady, D.InitConfig, CfgOf, T.Visible;
    var f := FetchTemplates(g, y, k);
    FetchHolds(g, s0, y, k, past, Unknown);
    FetchCopies(g, y, k);
    SameObserved(g, s0, f.y, f.k, past, Unknown);
    if f.out.Ok? {
      ReadyHolds(g, s0, f.y, f.k.spec, D.InitConfig(g.name, f.k.spec, f.out.value), f.k, past, Unknown);
    }
  }

  lemma PhaseHolds(g: Setting, s0: KodeSpec, y: Sys, k: Kode, past: seq<Status>, p: Phase)
    requires Holds(g, s0, y, k, past, Unknown) && HasAll(k.status)
    requires p == Pending || p == Configuring || p == Provisioning || p == Active
    ensures Holds(g, s0, y, WithPhase(k, p), y.log, p)
  {
    hide Inv, KeepsNames, KeepsRef, SameNames, TheUrl, ThePort, Live, C.Get;
  }

  /** The Unknown handler never errs; when it settles on a phase its copy already has it. */
  ghost predicate UnknownDone(g: Setting, s0: KodeSpec, past: seq<Status>, generation: int, o: Out) {
    && o.err.None? && o.result == REQUEUE
    && Inv(g, s0, o.y.w)
    && UnknownLog(o.y.log, past, generation)
    && Allowed(Unknown, o.phase)
    && (o.phase != Unknown ==> o.k.generation == generation && o.k.status.retryCount == 0 && Holds(g, s0, o.y, o.k, o.y.log, o.phase))
  }

  /** What was stored so far can be taken as past. */
  lemma Rebase(g: Setting, s0: KodeSpec, y: Sys, k: Kode, past: seq<Status>, ph: Phase)
    requires Holds(g, s0, y, k, past, ph)
    ensures Holds(g, s0, y, k, y.log, ph)
  {
    hide Inv, CopyOk;
  }

  lemma UnknownLogGrows(log: seq<Status>, past: seq<Status>, generation: int, s: Status)
    requires LogIs(log, past, Unknown, generation, 0)
    requires Allowed(Unknown, s.phase) && s.observedGeneration == generation && s.retryCount == 0
    ensures UnknownLog(log, past, generation) && UnknownLog(log + [s], past, generation)
  {
  }

  lemma SettledKept(g: Setting, s0: KodeSpec, y: Sys, k: Kode, d: Decided, past: seq<Status>)
    requires Holds(g, s0, d.y, d.k, past, Unknown) && HasAll(d.k.status) && d.k.generation == k.generation
    requires d.phase == Pending || d.phase == Configuring || d.phase == Provisioning || d.phase == Active
    ensures var n := WithPhase(d.k, d.phase);
            var v := UpdateStatus(g, d.y, n.status);
            UnknownDone(g, s0, past, k.generation, Out(v.y, n, if v.err.Some? then Unknown else d.phase, REQUEUE, None))
  {
    PhaseHolds(g, s0, d.y, d.k, past, d.phase);
    var n := WithPhase(d.k, d.phase);
    var v := UpdateStatus(g, d.y, n.status);
    SaveHolds(g, s0, d.y, n, d.y.log, d.phase);
    StoredLog(g, s0, d.y, n, d.y.log, d.phase);
    Rebase(g, s0, v.y, n, d.y.log, d.phase);
    SameObserved(g, s0, d.y, n, d.y.log, d.phase);
    assert d.k.status.retryCount == 0 && LogIs(d.y.log, past, Unknown, k.generation, 0) by {
      hide Inv, StatusOk, LogIs, Published, SameNames;
    }
    UnknownLogGrows(d.y.log, past, k.generation, n.status);
    assert Inv(g, s0, v.y.w) by { hide Inv, CopyOk, UpdateStatus; }
    hide Inv, Holds, UpdateStatus, HasAll, UnknownLog, LogIs;
  }

  lemma UnknownKept(g: Setting, s0: KodeSpec, y: Sys, k: Kode)
    requires Holds(g, s0, y, k, y.log, Unknown)
    ensures UnknownDone(g, s0, y.log, k.generation, HandleUnknown(g, y, k))
  {
    var past := y.log;
    var m := Mark3(k, Indeterminate, StateUnknown, Indeterminate, StateUnknown, Indeterminate, StateUnknown, y.t);
    Mark3Holds(g, s0, y, k, Indeterminate, StateUnknown, Indeterminate, StateUnknown, Indeterminate, StateUnknown, y.t, past, Unknown);
    Mark3Meaning(k, Indeterminate, StateUnknown, Indeterminate, StateUnknown, Indeterminate, StateUnknown, y.t);
    SaveHolds(g, s0, y, m, past, Unknown);
    var u := UpdateStatus(g, y, m.status);
    SameObserved(g, s0, u.y, m, past, Unknown);
    hide Holds, Mark3, UpdateStatus, DetermineResourceState, HasAll;
    if u.err.Some? {
      UnknownStops(g, s0, u.y, m, past);
    } else {
      var d := DetermineResourceState(g, u.y, m);
      DeterminedHolds(g, s0, u.y, m, past);
      ConditionsDecide(m.status, d.k.status);
      SettledKept(g, s0, u.y, k, d, past);
      hide UnknownDone, C.Is;
    }
  }

  lemma UnknownStops(g: Setting, s0: KodeSpec, y: Sys, k: Kode, past: seq<Status>)
    requires Holds(g, s0, y, k, past, Unknown)
    ensures UnknownDone(g, s0, past, k.generation, Out(y, k, Unknown, REQUEUE, None))
  {
    hide Inv, Published, StatusOk;
  }

  /** While the finalizer is on, a status write that gets through is appended to the log. */
  lemma StoredLog(g: Setting, s0: KodeSpec, y: Sys, k: Kode, past: seq<Status>, ph: Phase)
    requires Holds(g, s0, y, k, past, ph)
    ensures var u := UpdateStatus(g, y, k.status);
            u.y.log == if u.err.None? then y.log + [k.status] else y.log
  {
    EnterHolds(g, s0, y, k, past, ph);
    hide Inv, Enter;
  }

  // ---- the state machine ----

  /** What a reconcile past the generation gate may store, for a copy read as `k`. */
  predicate MachineStores(k: Kode, s: Status) {
    && (s.phase == k.status.phase || Allowed(k.status.phase, s.phase))
    && s.observedGeneration == k.generation
    && s.retryCount == (if k.status.phase == Failed then NextRetry(k.status.retryCount) else 0)
  }

  ghost predicate StoredBy(log: seq<Status>, past: seq<Status>, k: Kode) {
    past <= log && forall i :: |past| <= i < |log| ==> MachineStores(k, log[i])
  }

  /** An empty answer: the finalizer is off, or the last thing stored is another phase. */
  ghost predicate WillWake(g: Setting, d: Done, past: seq<Status>, ph: Phase) {
    g.interval > 0 && g.longInterval > 0 && d.err.None? && IsEmptyResult(d.result) ==>
      !Live(d.y.w) || (|d.y.log| > |past| && d.y.log[|d.y.log| - 1].phase != ph)
  }

  /** A failed handler has stored nothing but its own phase. */
  ghost predicate Atomic(d: Done, past: seq<Status>, k: Kode) {
    d.err.Some? && k.status.phase != Unknown ==>
      past <= d.y.log && forall i :: |past| <= i < |d.y.log| ==>
        d.y.log[i].phase == k.status.phase && d.y.log[i].observedGeneration == k.status.observedGeneration
  }

  lemma HandleKept(g: Setting, s0: KodeSpec, y: Sys, k: Kode)
    requires Holds(g, s0, y, k, y.log, k.status.phase)
    requires k.status.phase != Uninitialised && k.status.phase != Unknown
    ensures Kept(g, s0, k.generation, if k.status.phase == Failed then NextRetry(k.status.retryCount) else k.status.retryCount,
                 Handle(g, y, k), y.log, k.status.phase)
  {
    hide Holds, Kept, HandlePending, HandleConfiguring, HandleProvisioning, HandleActive, HandleUpdating,
      HandleDeleting, HandleFailed, HandleUnknown;
    match k.status.phase {
      case Pending => PendingKept(g, s0, y, k, y.log);
      case Configuring => ConfiguringKept(g, s0, y, k, y.log);
      case Provisioning => ProvisioningKept(g, s0, y, k, y.log);
      case Active => ActiveKept(g, s0, y, k, y.log);
      case Updating => UpdatingKept(g, s0, y, k, y.log);
      case Deleting => DeletingKept(g, s0, y, k, y.log);
      case Failed => FailedKept(g, s0, y, k);
    }
  }

  ghost predicate MachineOk(g: Setting, s0: KodeSpec, d: Done, past: seq<Status>, k: Kode) {
    Inv(g, s0, d.y.w) && StoredBy(d.y.log, past, k) && WillWake(g, d, past, k.status.phase) && Atomic(d, past, k)
  }

  lemma UnknownStores(g: Setting, s0: KodeSpec, k: Kode, o: Out, past: seq<Status>)
    requires UnknownDone(g, s0, past, k.generation, o) && k.status.phase == Unknown && o.phase != Unknown
    ensures var u := UpdateStatus(g, o.y, WithPhase(o.k, o.phase).status);
            && Inv(g, s0, u.y.w)
            && u.y.log == (if u.err.None? then o.y.log + [o.k.status] else o.y.log)
            && MachineStores(k, o.k.status) && o.k.status.phase == o.phase
  {
    SameObserved(g, s0, o.y, o.k, o.y.log, o.phase);
    assert WithPhase(o.k, o.phase) == o.k by { hide Inv, Holds; }
    SaveHolds(g, s0, o.y, o.k, o.y.log, o.phase);
    StoredLog(g, s0, o.y, o.k, o.y.log, o.phase);
    hide Inv, CopyOk, UpdateStatus, WithPhase, HasAll, LogIs, NextRetry, UnknownLog;
  }

  lemma AdvanceUnknown(g: Setting, s0: KodeSpec, k: Kode, o: Out, past: seq<Status>)
    requires UnknownDone(g, s0, past, k.generation, o) && k.status.phase == Unknown
    ensures MachineOk(g, s0, Advance(g, Unknown, o), past, k)
  {
    if o.phase != Unknown {
      UnknownStores(g, s0, k, o, past);
    }
    hide Inv, Holds, UpdateStatus, WithPhase, Live;
  }

  lemma StoredByLog(log: seq<Status>, past: seq<Status>, k: Kode)
    requires LogIs(log, past, k.status.phase, k.generation, if k.status.phase == Failed then NextRetry(k.status.retryCount) else 0)
    ensures StoredBy(log, past, k)
  {
  }

  /** From what the handler leaves to what the state machine leaves. */
  lemma AdvanceKnown(g: Setting, s0: KodeSpec, k: Kode, o: Out, past: seq<Status>)
    requires k.status.phase != Unknown && k.status.observedGeneration == k.generation
    requires Kept(g, s0, k.generation, if k.status.phase == Failed then NextRetry(k.status.retryCount) else 0, o, past, k.status.phase)
    ensures MachineOk(g, s0, Advance(g, k.status.phase, o), past, k)
  {
    hide Inv, CopyOk, UpdateStatus, HasAll, Reported, Holds, Allowed, NextRetry;
    var ph := k.status.phase;
    StoredByLog(o.y.log, past, k);
    if o.err.None? && o.phase != ph {
      AdvanceKeeps(g, s0, o.y, o.k, o.phase, past, ph);
      SameObserved(g, s0, o.y, o.k, past, ph);
    }
  }

  lemma HandleStateKeeps(g: Setting, s0: KodeSpec, y: Sys, k: Kode)
    requires Holds(g, s0, y, k, y.log, k.status.phase)
    ensures MachineOk(g, s0, HandleState(g, y, k), y.log, k)
  {
    SameObserved(g, s0, y, k, y.log, k.status.phase);
    assert k.status.phase != Failed ==> k.status.retryCount == 0 by { hide Inv, StatusOk, Published, SameNames; }
    assert Inv(g, s0, y.w) by { hide Inv, CopyOk; }
    hide Holds, Inv, Handle, Advance, Kept, UnknownDone, HandleUnknown;
    if k.status.phase == Unknown {
      UnknownKept(g, s0, y, k);
      HandlesUnknown(g, y, k);
      AdvanceUnknown(g, s0, k, HandleUnknown(g, y, k), y.log);
    } else if k.status.phase != Uninitialised {
      HandleKept(g, s0, y, k);
      AdvanceKnown(g, s0, k, Handle(g, y, k), y.log);
    }
  }

  lemma HandlesUnknown(g: Setting, y: Sys, k: Kode)
    requires k.status.phase == Unknown
    ensures Handle(g, y, k) == HandleUnknown(g, y, k)
  {
    hide HandleUnknown;
  }

  // ---- a whole reconcile ----

  /** The phase a reconcile works in, given the Kode it read. */
  function WorkingPhase(k: Kode): Phase { if k.deleting then Deleting else k.status.phase }

  /** What a reconcile that read `k` may store. */
  predicate MayStore(k: Kode, s: Status) {
    if k.deleting then
      && s.phase == Deleting
      && (s == WithPhase(k, Deleting).status
          || (s.observedGeneration == k.generation
              && s.retryCount == if k.generation == k.status.observedGeneration then 0 else k.status.retryCount))
    else if !k.finalizer then s == k.status.(phase := Pending, observedGeneration := k.generation)
    else if k.generation != k.status.observedGeneration then
      s.phase == Updating && s.observedGeneration == k.generation && s.retryCount == k.status.retryCount
    else MachineStores(k, s)
  }

  ghost predicate AllMayStore(log: seq<Status>, past: seq<Status>, k: Kode) {
    past <= log && forall i :: |past| <= i < |log| ==> MayStore(k, log[i])
  }

  /** A failed reconcile has stored nothing but the phase it works in and the generation it read. */
  ghost predicate AtomicFrom(d: Done, past: seq<Status>, k: Kode) {
    d.err.Some? && WorkingPhase(k) != Unknown ==>
      past <= d.y.log && forall i :: |past| <= i < |d.y.log| ==>
        d.y.log[i].phase == WorkingPhase(k) && d.y.log[i].observedGeneration == k.status.observedGeneration
  }

  ghost predicate ReconcileOk(g: Setting, s0: KodeSpec, d: Done, past: seq<Status>, k: Kode) {
    && Inv(g, s0, d.y.w)
    && AllMayStore(d.y.log, past, k)
    && WillWake(g, d, past, k.status.phase)
    && AtomicFrom(d, past, k)
  }

  /** What holds of the Kode as read, and of the cluster while the reconcile has it. */
  ghost predicate Fresh(g: Setting, s0: KodeSpec, w: World, k: Kode) {
    && Inv(g, s0, w)
    && StatusOk(k.status)
    && k.status.observedGeneration <= k.generation
    && (k.deleting ==> k.finalizer)
    && (k.status.phase == Deleting ==> k.deleting)
    && (k.status.phase == Uninitialised ==> k.status.observedGeneration < k.generation)
    && (k.finalizer ==> Live(w))
    && (w.kode.Some? ==> k.generation <= w.kode.value.generation && (k.deleting ==> w.kode.value.deleting))
    && (KeepsNames(g, s0) ==> SameNames(k.spec, s0))
    && (KeepsRef(g, s0) ==> k.spec.templateRef == s0.templateRef && Published(g, s0, w, k.status))
  }

  lemma LaterFresh(g: Setting, s0: KodeSpec, w: World, v: World, k: Kode)
    requires Fresh(g, s0, w, k) && Later(w, v) && Inv(g, s0, v)
    ensures Fresh(g, s0, v, k)
  {
    hide Inv, StatusOk, KeepsNames, KeepsRef, SameNames, Exists, ThePort, TheUrl;
  }

  lemma EnterFresh(g: Setting, s0: KodeSpec, y: Sys, k: Kode)
    requires Fresh(g, s0, y.w, k)
    ensures Fresh(g, s0, Enter(g, y).w, k)
  {
    hide Enter, Inv, Later;
    assert Inv(g, s0, y.w);
    EnterKeeps(g, s0, y);
    LaterFresh(g, s0, y.w, Enter(g, y).w, k);
  }

  predicate Suitable(k: Kode, s: Status) {
    && StatusOk(s)
    && s.phase != Uninitialised
    && s.observedGeneration <= k.generation
    && (s.phase == Deleting ==> k.deleting)
    && s.kodeUrl == k.status.kodeUrl && s.kodePort == k.status.kodePort
  }

  lemma StoreFresh(g: Setting, s0: KodeSpec, y: Sys, k: Kode, s: Status)
    requires Fresh(g, s0, y.w, k) && Suitable(k, s)
    ensures var u := UpdateStatus(g, y, s);
            && Fresh(g, s0, u.y.w, k)
            && (u.y.log == y.log || (u.err.None? && u.y.log == y.log + [s]))
            && (u.err.None? && k.finalizer ==> u.y.log == y.log + [s])
  {
    EnterFresh(g, s0, y, k);
    var z := Enter(g, y);
    StoreSuitable(g, s0, z.w, s) by { hide Inv, StatusOk, KeepsNames, KeepsRef, SameNames, ThePort, TheUrl; }
    hide Inv, Enter, StatusOk, KeepsNames, KeepsRef, SameNames, ThePort, TheUrl;
  }

  lemma FinalizerFresh(g: Setting, s0: KodeSpec, y: Sys, k: Kode)
    requires Fresh(g, s0, y.w, k) && !k.finalizer
    ensures var a := AddFinalizer(g, y); Fresh(g, s0, a.y.w, k) && a.y.log == y.log
  {
    EnterFresh(g, s0, y, k);
    hide Enter, StatusOk, KeepsNames, KeepsRef, SameNames, ThePort, TheUrl, Exists, IsOwn, OwnUnder, R.RequiredAbsent;
  }

  lemma InitialiseKeeps(g: Setting, s0: KodeSpec, y: Sys, k: Kode)
    requires Fresh(g, s0, y.w, k) && !k.finalizer
    ensures ReconcileOk(g, s0, Initialise(g, y, k), y.log, k)
  {
    var a := AddFinalizer(g, y);
    var s := k.status.(phase := Pending, observedGeneration := k.generation);
    FinalizerFresh(g, s0, y, k);
    assert Suitable(k, s) by { hide Inv, HasAll, KeepsNames, KeepsRef; }
    hide Suitable;
    StoreFresh(g, s0, a.y, k, s);
    hide Inv, AddFinalizer, UpdateStatus, StatusOk, KeepsNames, KeepsRef;
  }

  lemma MismatchKeeps(g: Setting, s0: KodeSpec, y: Sys, k: Kode)
    requires Fresh(g, s0, y.w, k) && k.finalizer && k.generation != k.status.observedGeneration
    requires k.deleting <==> k.status.phase == Deleting
    ensures var u := HandleGenerationMismatch(g, y, k);
            && Inv(g, s0, u.y.w)
            && AllMayStore(u.y.log, y.log, k)
            && (u.err.Some? ==> u.y.log == y.log)
  {
    var m := k.(status := k.status.(observedGeneration := k.generation));
    Mark3Meaning(WithPhase(m, Updating), False, GenerationMismatch, False, GenerationMismatch, True, GenerationMismatch, y.t);
    var n := if k.status.phase == Deleting then m
             else Mark3(WithPhase(m, Updating), False, GenerationMismatch, False, GenerationMismatch, True, GenerationMismatch, y.t);
    hide Mark3, HasAll;
    assert Suitable(k, n.status) by { hide Inv, KeepsNames, KeepsRef; }
    assert MayStore(k, n.status) by { hide Fresh; }
    hide Suitable;
    StoreFresh(g, s0, y, k, n.status);
    hide Inv, UpdateStatus, StatusOk, KeepsNames, KeepsRef, MayStore;
  }

  /** A reconcile past the gates works on a good copy, with retry count 0 unless the phase is Failed. */
  lemma FreshHolds(g: Setting, s0: KodeSpec, y: Sys, k: Kode)
    requires Fresh(g, s0, y.w, k) && k.finalizer && k.generation == k.status.observedGeneration
    requires k.deleting <==> k.status.phase == Deleting
    requires k.status.phase != Failed ==> k.status.retryCount == 0
    ensures Holds(g, s0, y, k, y.log, k.status.phase)
  {
    hide Inv, StatusOk, KeepsNames, KeepsRef, SameNames, Published;
  }

  lemma MachineShift(g: Setting, s0: KodeSpec, d: Done, past: seq<Status>, k: Kode)
    requires k.status.phase != Failed && k.status.phase != Unknown && k.status.observedGeneration == k.generation
    requires MachineOk(g, s0, d, past + [k.status.(retryCount := 0)], k.(status := k.status.(retryCount := 0)))
    ensures MachineOk(g, s0, d, past, k)
  {
    hide Inv, NextRetry, Allowed, Live;
  }

  lemma ResetFresh(g: Setting, s0: KodeSpec, y: Sys, k: Kode)
    requires Fresh(g, s0, y.w, k) && k.generation == k.status.observedGeneration
    ensures Fresh(g, s0, y.w, k.(status := k.status.(retryCount := 0))) && Suitable(k, k.status.(retryCount := 0))
  {
    ConditionsDecide(k.status, k.status.(retryCount := 0));
    hide Inv, HasAll, KeepsNames, KeepsRef, SameNames, TheUrl, ThePort, Live;
  }

  lemma RunMachineKeeps(g: Setting, s0: KodeSpec, y: Sys, k: Kode)
    requires Fresh(g, s0, y.w, k) && k.finalizer && k.generation == k.status.observedGeneration
    requires k.deleting <==> k.status.phase == Deleting
    ensures MachineOk(g, s0, RunMachine(g, y, k), y.log, k)
  {
    var reset := k.status.phase != Failed && k.status.retryCount > 0;
    assert StatusOk(k.status) && Inv(g, s0, y.w) by { hide Inv, StatusOk; }
    if reset {
      var m := k.(status := k.status.(retryCount := 0));
      ResetFresh(g, s0, y, k);
      hide Suitable;
      StoreFresh(g, s0, y, k, m.status);
      StoreFresh(g, s0, y, m, m.status) by { ResetSuitable(k, m); }
      var u := UpdateStatus(g, y, m.status);
      hide UpdateStatus;
      if u.err.None? {
        FreshHolds(g, s0, u.y, m) by { hide Inv; }
        HandleStateKeeps(g, s0, u.y, m);
        hide MachineOk, HandleState;
        MachineShift(g, s0, HandleState(g, u.y, m), y.log, k);
        MachineResult(g, s0, HandleState(g, u.y, m), y.log, k);
      } else {
        assert u.y.log == y.log;
      }
      hide Fresh;
    } else {
      FreshHolds(g, s0, y, k);
      HandleStateKeeps(g, s0, y, k);
      hide MachineOk, HandleState;
      MachineResult(g, s0, HandleState(g, y, k), y.log, k);
    }
    hide Inv, HandleState, Fresh, StatusOk, Live;
  }

  lemma ResetSuitable(k: Kode, m: Kode)
    requires Suitable(k, m.status) && m == k.(status := m.status)
    ensures Suitable(m, m.status)
  {
  }

  /** Reconcile replaces the result of a failed state machine. */
  lemma MachineResult(g: Setting, s0: KodeSpec, d: Done, past: seq<Status>, k: Kode)
    requires MachineOk(g, s0, d, past, k)
    ensures MachineOk(g, s0, Done(d.y, if d.err.Some? then REQUEUE else d.result, d.err), past, k)
  {
    hide Inv, MachineStores, Live;
  }

  lemma DeletingFresh(g: Setting, s0: KodeSpec, w: World, k: Kode)
    requires Fresh(g, s0, w, k) && k.deleting
    ensures Fresh(g, s0, w, WithPhase(k, Deleting)) && Suitable(k, WithPhase(k, Deleting).status)
  {
    hide Inv, HasAll, KeepsNames, KeepsRef, SameNames, TheUrl, ThePort, Live;
  }

  /** For a copy whose phase already is the one the reconcile works in. */
  lemma AfterGateKeeps(g: Setting, s0: KodeSpec, y: Sys, k: Kode)
    requires Fresh(g, s0, y.w, k)
    requires k.deleting <==> k.status.phase == Deleting
    ensures ReconcileOk(g, s0, AfterDeletionGate(g, y, k), y.log, k)
  {
    if !k.finalizer {
      InitialiseKeeps(g, s0, y, k);
      hide ReconcileOk, Initialise, Fresh;
    } else if k.generation != k.status.observedGeneration {
      MismatchKeeps(g, s0, y, k);
      hide Fresh, Inv, HandleGenerationMismatch, MayStore;
    } else {
      RunMachineKeeps(g, s0, y, k);
      MachineStoresMay(g, s0, RunMachine(g, y, k), y.log, k);
      hide Fresh, MachineOk, ReconcileOk, RunMachine;
    }
  }

  lemma MachineStoresMay(g: Setting, s0: KodeSpec, d: Done, past: seq<Status>, k: Kode)
    requires MachineOk(g, s0, d, past, k)
    requires k.finalizer && k.generation == k.status.observedGeneration && (k.deleting <==> k.status.phase == Deleting)
    ensures ReconcileOk(g, s0, d, past, k)
  {
    hide Inv, Live, NextRetry;
  }

  lemma DeletingShift(g: Setting, s0: KodeSpec, d: Done, past: seq<Status>, k: Kode)
    requires k.deleting
    requires ReconcileOk(g, s0, d, past + [WithPhase(k, Deleting).status], WithPhase(k, Deleting))
    ensures ReconcileOk(g, s0, d, past, k)
  {
    hide Inv, Live, MachineStores;
  }

  /** Every reconcile, whatever the others do before each of its calls and whichever calls fail. */
  lemma ReconcileKeeps(g: Setting, s0: KodeSpec, y: Sys)
    requires Inv(g, s0, y.w)
    ensures Inv(g, s0, Reconcile(g, y).y.w)
    ensures var z := Enter(g, y);
            var d := Reconcile(g, y);
            if Up(g, y) && z.w.kode.Some? then ReconcileOk(g, s0, d, y.log, z.w.kode.value)
            else d.y == z && (d.err.None? ==> !Live(d.y.w))
  {
    EnterKeeps(g, s0, y);
    var z := Enter(g, y);
    hide Enter, Inv;
    if Up(g, y) && z.w.kode.Some? {
      var k := z.w.kode.value;
      ReadIsFresh(g, s0, z.w);
      if k.deleting {
        var m := WithPhase(k, Deleting);
        DeletingFresh(g, s0, z.w, k);
        hide Suitable;
        StoreFresh(g, s0, z, k, m.status);
        var u := UpdateStatus(g, z, m.status);
        hide UpdateStatus, WithPhase;
        if u.err.None? {
          DeletingFresh(g, s0, u.y.w, k);
          AfterGateKeeps(g, s0, u.y, m) by { hide Fresh; assert m.deleting && m.status.phase == Deleting by { WithPhaseIs(k, Deleting); } }
          hide ReconcileOk, AfterDeletionGate;
          DeletingShift(g, s0, AfterDeletionGate(g, u.y, m), z.log, k);
        }
      } else {
        AfterGateKeeps(g, s0, z, k);
        hide ReconcileOk, AfterDeletionGate;
      }
    }
    hide Fresh;
  }

  lemma WithPhaseIs(k: Kode, p: Phase)
    ensures WithPhase(k, p).status.phase == p && WithPhase(k, p).deleting == k.deleting && WithPhase(k, p).finalizer == k.finalizer
  {
  }

  lemma ReadIsFresh(g: Setting, s0: KodeSpec, w: World)
    requires Inv(g, s0, w) && w.kode.Some?
    ensures Fresh(g, s0, w, w.kode.value)
  {
    hide StatusOk, KeepsNames, KeepsRef, SameNames, TheUrl, ThePort;
  }
}

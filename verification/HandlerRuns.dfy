/** What every run keeps, handler by handler: the copy with which a reconcile calls its handler, and what
    follows for errors, for the Active handler's dereferences, for becoming Active, and for recovery. */
module HandlerRuns {
  import opened KodeTypes
  import opened Cluster
  import opened Invariants
  import opened Handlers
  import opened Safety
  import opened HandlerSafety
  import opened ReconcileSafety
  import opened Runs
  import A = Agreement
  import D = Desired
  import R = Resources
  import St = Steady

  // ---- the handler call of a reconcile ----

  /** The cluster and the copy a reconcile calls its handler with. */
  datatype Entry = Entry(y: Sys, k: Kode)

  function ResetEntry(g: Setting, y: Sys, k: Kode): Option<Entry> {
    if k.status.phase != Failed && k.status.retryCount > 0 then
      var m := k.(status := k.status.(retryCount := 0));
      var u := UpdateStatus(g, y, m.status);
      if u.err.Some? then None else Some(Entry(u.y, m))
    else Some(Entry(y, k))
  }

  function GateEntry(g: Setting, y: Sys, k: Kode): Option<Entry> {
    if !k.finalizer || k.generation != k.status.observedGeneration then None else ResetEntry(g, y, k)
  }

  function HandlerEntry(g: Setting, y: Sys): Option<Entry> {
    var z := Enter(g, y);
    if !Up(g, y) || z.w.kode.None? then None
    else
      var k := z.w.kode.value;
      if !k.deleting then GateEntry(g, z, k)
      else if !k.finalizer then None
      else
        var u := UpdateStatus(g, z, WithPhase(k, Deleting).status);
        if u.err.Some? then None else GateEntry(g, u.y, WithPhase(k, Deleting))
  }

  lemma SaveRefused(g: Setting, y: Sys, s: Status)
    ensures UpdateStatus(g, y, s).err.None? || UpdateStatus(g, y, s).err == Some(Refused)
  {
    hide Others;
  }

  lemma GateEntryIs(g: Setting, y: Sys, k: Kode)
    ensures var e := GateEntry(g, y, k);
            var d := AfterDeletionGate(g, y, k);
            if e.Some? then
              var h := HandleState(g, e.value.y, e.value.k);
              d.y == h.y && d.err == h.err && d.result == if h.err.Some? then REQUEUE else h.result
            else d.err.None? || d.err == Some(Refused)
  {
    hide HandleState, Enter, Mark3;
  }

  /** A reconcile that reaches its handler ends as the state machine does; one that does not fails only by a
      refused call. */
  lemma EntryIs(g: Setting, y: Sys)
    ensures var e := HandlerEntry(g, y);
            var d := Reconcile(g, y);
            if e.Some? then
              var h := HandleState(g, e.value.y, e.value.k);
              d.y == h.y && d.err == h.err && d.result == if h.err.Some? then REQUEUE else h.result
            else d.err.None? || d.err == Some(Refused)
  {
    hide HandleState, AfterDeletionGate, GateEntry, Enter, UpdateStatus;
    var z := Enter(g, y);
    if z.w.kode.Some? {
      var k := z.w.kode.value;
      var m := WithPhase(k, Deleting);
      SaveRefused(g, z, m.status);
      GateEntryIs(g, z, k);
      GateEntryIs(g, UpdateStatus(g, z, m.status).y, m);
    }
  }

  lemma GateEntryHolds(g: Setting, s0: KodeSpec, y: Sys, k: Kode)
    requires Fresh(g, s0, y.w, k) && (k.deleting <==> k.status.phase == Deleting)
    ensures var e := GateEntry(g, y, k);
            e.Some? ==>
              && Holds(g, s0, e.value.y, e.value.k, e.value.y.log, k.status.phase)
              && e.value.k.status.phase == k.status.phase && e.value.k == k.(status := e.value.k.status)
              && (k.status.phase == Failed ==> e.value == Entry(y, k))
  {
    if k.finalizer && k.generation == k.status.observedGeneration {
      if k.status.phase != Failed && k.status.retryCount > 0 {
        var m := k.(status := k.status.(retryCount := 0));
        ResetFresh(g, s0, y, k);
        StoreFresh(g, s0, y, m, m.status) by { hide Fresh; ResetSuitable(k, m); }
        var u := UpdateStatus(g, y, m.status);
        hide UpdateStatus;
        if u.err.None? {
          FreshHolds(g, s0, u.y, m) by { hide Inv; }
        }
      } else {
        assert StatusOk(k.status) by { hide Inv, StatusOk; }
        FreshHolds(g, s0, y, k);
      }
    }
    hide Fresh, Holds, UpdateStatus, Suitable;
  }

  /** Every copy a handler is called with is a good one, and of the phase the reconcile works in. */
  lemma EntryHolds(g: Setting, s0: KodeSpec, y: Sys)
    requires Inv(g, s0, y.w)
    ensures var e := HandlerEntry(g, y);
            var z := Enter(g, y);
            e.Some? ==>
              && z.w.kode.Some?
              && Holds(g, s0, e.value.y, e.value.k, e.value.y.log, e.value.k.status.phase)
              && e.value.k.status.phase == WorkingPhase(z.w.kode.value)
              && e.value.k == z.w.kode.value.(status := e.value.k.status)
              && (e.value.k.status.phase == Failed ==> e.value == Entry(z, z.w.kode.value))
  {
    EnterKeeps(g, s0, y);
    var z := Enter(g, y);
    hide Enter, Inv, GateEntry, Holds, UpdateStatus, Suitable, Later;
    if z.w.kode.Some? {
      var k := z.w.kode.value;
      ReadIsFresh(g, s0, z.w);
      var m := WithPhase(k, Deleting);
      if k.deleting {
        DeletingFresh(g, s0, z.w, k);
        StoreFresh(g, s0, z, k, m.status);
        DeletingFresh(g, s0, UpdateStatus(g, z, m.status).y.w, k);
        hide Fresh;
        GateEntryHolds(g, s0, UpdateStatus(g, z, m.status).y, m);
      } else {
        GateEntryHolds(g, s0, z, k);
      }
    }
    hide Fresh;
  }

  /** Over runs: a handler is only ever called with the generation observed, the finalizer on, a phase that
      has a handler, and retry count 0 unless the phase is Failed. */
  lemma HandlersGetGoodCopies(g: Setting, y: Sys, events: seq<Event>)
    requires Start(g, y)
    ensures var e := HandlerEntry(g, Run(g, y, events));
            e.Some? ==>
              var k := e.value.k;
              && k.generation == k.status.observedGeneration && k.finalizer && k.status.phase != Uninitialised
              && (k.status.phase != Failed ==> k.status.retryCount == 0) && StatusOk(k.status)
              && (k.deleting <==> k.status.phase == Deleting)
  {
    hide HandlerEntry, Run, Start, Inv, StatusOk, Later, Enter, LogIs;
    StartIsThere(g, y);
    Reachable(g, y, events);
    EntryHolds(g, FirstSpec(y), Run(g, y, events));
  }

  // ---- corollaries over runs ----

  /** A Kode that has its finalizer but no phase yet, because the initialising write was lost, never meets a
      missing handler: its reconcile fails only by a refused call, and all it stores is Updating. */
  lemma HandlerIsFound(g: Setting, y: Sys, events: seq<Event>)
    requires Start(g, y)
    ensures var r := Run(g, y, events);
            var z := Enter(g, r);
            var d := Reconcile(g, r);
            Up(g, r) && z.w.kode.Some? && z.w.kode.value.status.phase == Uninitialised && z.w.kode.value.finalizer
            && !z.w.kode.value.deleting ==>
              && (d.err.None? || d.err == Some(Refused))
              && r.log <= d.y.log && forall i :: |r.log| <= i < |d.y.log| ==> d.y.log[i].phase == Updating
  {
    hide HandlerEntry, Run, Start, Inv, Later, Enter, Reconcile, Holds, HandleState, Up, Follows;
    StartIsThere(g, y);
    var r := Run(g, y, events);
    Reachable(g, y, events);
    StoresFollow(g, FirstSpec(y), r);
    EnterKeeps(g, FirstSpec(y), r);
    EntryIs(g, r);
    var z := Enter(g, r);
    if z.w.kode.Some? && z.w.kode.value.status.phase == Uninitialised {
      NotObserved(g, FirstSpec(y), z.w);
      UnobservedHasNoEntry(g, r);
      forall s: Status | Follows(z.w.kode.value, s) && z.w.kode.value.finalizer && !z.w.kode.value.deleting
        ensures s.phase == Updating
      {
        UpdatingFollows(z.w.kode.value, s);
      }
    }
  }

  lemma UnobservedHasNoEntry(g: Setting, y: Sys)
    requires Enter(g, y).w.kode.Some?
    ensures var k := Enter(g, y).w.kode.value;
            !k.deleting && k.generation != k.status.observedGeneration ==> HandlerEntry(g, y).None?
  {
    hide Enter;
  }

  lemma NotObserved(g: Setting, s0: KodeSpec, w: World)
    requires Inv(g, s0, w) && w.kode.Some? && w.kode.value.status.phase == Uninitialised
    ensures w.kode.value.status.observedGeneration < w.kode.value.generation
  {
    hide OrphanInv, NamesInv, UrlInv, StatusOk;
  }

  lemma UpdatingFollows(k: Kode, s: Status)
    requires Follows(k, s) && k.finalizer && !k.deleting && k.status.observedGeneration < k.generation
    ensures s.phase == Updating
  {
  }

  /** No reconcile of an Active Kode ends in a nil dereference. */
  lemma ActiveNeverPanics(g: Setting, y: Sys, events: seq<Event>)
    requires Start(g, y)
    ensures var r := Run(g, y, events);
            var z := Enter(g, r);
            Up(g, r) && z.w.kode.Some? && z.w.kode.value.status.phase == Active && !z.w.kode.value.deleting ==>
              Reconcile(g, r).err != Some(NilPointer)
  {
    hide HandlerEntry, Run, Start, Inv, Later, Enter, Reconcile, Holds, HandleState, Up;
    StartIsThere(g, y);
    var r := Run(g, y, events);
    Reachable(g, y, events);
    EntryHolds(g, FirstSpec(y), r);
    EntryIs(g, r);
    var e := HandlerEntry(g, r);
    if e.Some? && e.value.k.status.phase == Active {
      ActiveHandlerNeverPanics(g, FirstSpec(y), e.value.y, e.value.k);
      ActiveStateErrs(g, e.value.y, e.value.k);
    }
  }

  lemma ActiveStateErrs(g: Setting, y: Sys, k: Kode)
    requires k.status.phase == Active && HandleActive(g, y, k).err != Some(NilPointer)
    ensures HandleState(g, y, k).err != Some(NilPointer)
  {
    forall o: Out ensures UpdateStatus(g, o.y, WithPhase(o.k, o.phase).status).err != Some(NilPointer) {
      SaveRefused(g, o.y, WithPhase(o.k, o.phase).status);
    }
    hide HandleActive, UpdateStatus;
  }

  /** Every error of a handler is reported, in the copy and, if the last write got through, in the stored Kode. */
  lemma ErrorsAreReported(g: Setting, y: Sys, events: seq<Event>)
    requires Start(g, y)
    ensures var e := HandlerEntry(g, Run(g, y, events));
            e.Some? && e.value.k.status.phase != Uninitialised ==> Reported(g, Handle(g, e.value.y, e.value.k))
  {
    hide HandlerEntry, Run, Start, Inv, Later, Enter, Holds, Handle, Reported;
    StartIsThere(g, y);
    Reachable(g, y, events);
    EntryHolds(g, FirstSpec(y), Run(g, y, events));
    var e := HandlerEntry(g, Run(g, y, events));
    if e.Some? && e.value.k.status.phase != Uninitialised {
      HandlerErrorsAreReported(g, FirstSpec(y), e.value.y, e.value.k);
    }
  }

  /** The number of the call that first writes the phase an Unknown Kode is found to be in. */
  function DeterminedAt(g: Setting, y: Sys, k: Kode): nat {
    var m := Mark3(k, Indeterminate, StateUnknown, Indeterminate, StateUnknown, Indeterminate, StateUnknown, y.t);
    DetermineResourceState(g, UpdateStatus(g, y, m.status).y, m).y.t
  }

  lemma UnknownCalls(g: Setting, s0: KodeSpec, y: Sys, k: Kode)
    requires Holds(g, s0, y, k, y.log, Unknown)
    ensures var o := HandleUnknown(g, y, k);
            && (o.phase != Unknown <==> Up(g, y) && g.script(DeterminedAt(g, y, k)).ok)
            && (o.phase != Unknown ==> o.y.t == DeterminedAt(g, y, k) + 1)
  {
    var m := Mark3(k, Indeterminate, StateUnknown, Indeterminate, StateUnknown, Indeterminate, StateUnknown, y.t);
    Mark3Holds(g, s0, y, k, Indeterminate, StateUnknown, Indeterminate, StateUnknown, Indeterminate, StateUnknown, y.t, y.log, Unknown);
    SaveHolds(g, s0, y, m, y.log, Unknown);
    var u := UpdateStatus(g, y, m.status);
    StoredWhenUp(g, y, m.status);
    SameObserved(g, s0, u.y, m, y.log, Unknown);
    DeterminedHolds(g, s0, u.y, m, y.log);
    var d := DetermineResourceState(g, u.y, m);
    StoredWhenUp(g, d.y, WithPhase(d.k, d.phase).status);
    hide Holds, Mark3, UpdateStatus, DetermineResourceState;
  }

  lemma UnknownStateErrs(g: Setting, s0: KodeSpec, y: Sys, k: Kode)
    requires Holds(g, s0, y, k, y.log, Unknown)
    ensures var n := DeterminedAt(g, y, k);
            var d := HandleState(g, y, k);
            && (d.err.Some? <==> Up(g, y) && g.script(n).ok && !g.script(n + 1).ok)
            && (d.err.Some? ==> |d.y.log| > |y.log| && Last(d.y.log).phase != Unknown)
  {
    hide Holds, HandleUnknown, HandleState, DeterminedAt;
    UnknownHandlerErrors(g, s0, y, k);
    UnknownCalls(g, s0, y, k);
  }

  /** The exception to atomicity, exactly: the reconcile of an Unknown Kode that reaches its handler fails if
      and only if the handler's first write and its write of the determined phase get through and the very
      next call, the state machine's second write of that phase, does not; the phase has then been stored. */
  lemma UnknownErrorsChangePhase(g: Setting, y: Sys, events: seq<Event>)
    requires Start(g, y)
    ensures var r := Run(g, y, events);
            var e := HandlerEntry(g, r);
            var d := Reconcile(g, r);
            e.Some? && e.value.k.status.phase == Unknown ==>
              var n := DeterminedAt(g, e.value.y, e.value.k);
              && (d.err.Some? <==> Up(g, e.value.y) && g.script(n).ok && !g.script(n + 1).ok)
              && (d.err.Some? ==> |d.y.log| > |e.value.y.log| && Last(d.y.log).phase != Unknown)
  {
    hide HandlerEntry, Run, Start, Inv, Later, Enter, Holds, Reconcile, HandleState, DeterminedAt, Up;
    StartIsThere(g, y);
    var r := Run(g, y, events);
    Reachable(g, y, events);
    EntryHolds(g, FirstSpec(y), r);
    EntryIs(g, r);
    var e := HandlerEntry(g, r);
    if e.Some? && e.value.k.status.phase == Unknown {
      UnknownStateErrs(g, FirstSpec(y), e.value.y, e.value.k);
    }
  }

  // ---- becoming Active ----

  /** An Active status is stored from this place of the log on. */
  ghost predicate StoresActive(log: seq<Status>, from: nat) { exists i :: from <= i < |log| && log[i].phase == Active }

  /** The template is fetched, every check gets through and finds its part ready at its own call, and so do the
      two calls after the checks, which store the handler's copy and then its new phase. */
  ghost predicate AllGetThrough(g: Setting, y: Sys, k: Kode) {
    var f := FetchTemplates(g, y, k);
    && f.out.Ok?
    && var cfg := D.InitConfig(g.name, f.k.spec, f.out.value);
       var t := R.CheckResourcesReady(g, f.y, f.k.spec, cfg).y.t;
       A.AllAnswered(g, f.y, f.k.spec, cfg, R.CHECKS) && g.script(t).ok && g.script(t + 1).ok
  }

  lemma LogGrows(g: Setting, s0: KodeSpec, y: Sys, k: Kode, past: seq<Status>, ph: Phase, s: Status)
    requires Holds(g, s0, y, k, past, ph)
    ensures UpdateStatus(g, y, s).y.log == if Up(g, y) then y.log + [s] else y.log
  {
    EnterHolds(g, s0, y, k, past, ph);
    EnterLog(g, y);
    hide Inv, Enter, LogIs;
  }

  lemma ProvisioningAnswers(g: Setting, y: Sys, k: Kode)
    ensures var o := HandleProvisioning(g, y, k);
            AllGetThrough(g, y, k) <==> o.err.None? && o.phase == Active && Up(g, o.y)
  {
    hide FetchTemplates, R.RunChecks, UpdateStatus, HandleReconcileError, Mark3, D.InitConfig, A.AllAnswered;
    var f := FetchTemplates(g, y, k);
    if f.out.Ok? {
      var cfg := D.InitConfig(g.name, f.k.spec, f.out.value);
      var r := R.CheckResourcesReady(g, f.y, f.k.spec, cfg);
      A.ChecksAnswer(g, f.y, f.k.spec, cfg, R.CHECKS);
      var m := Mark3(f.k, True, ResourcesReady, True, ResourcesReady, False, Provisioned, r.y.t);
      StoredWhenUp(g, r.y, m.status.(kodePort := f.out.value.spec.port));
    }
    ErrorsErr(g);
  }

  lemma ErrorsErr(g: Setting)
    ensures forall y, k, e :: HandleReconcileError(g, y, k, e).err.Some?
  {
    hide UpdateStatus, Mark3;
  }

  lemma ProvisioningStores(g: Setting, s0: KodeSpec, y: Sys, k: Kode)
    requires Holds(g, s0, y, k, y.log, Provisioning)
    ensures StoresActive(HandleState(g, y, k).y.log, |y.log|) <==> AllGetThrough(g, y, k)
  {
    hide Holds, HandleProvisioning, AllGetThrough, Up, UpdateStatus, Reported, Awake, HasAll, Inv;
    var o := HandleProvisioning(g, y, k);
    SameObserved(g, s0, y, k, y.log, Provisioning);
    ProvisioningKept(g, s0, y, k, y.log);
    ProvisioningAnswers(g, y, k);
    St.ProvisioningIsHandled(g, y, k);
    var s := WithPhase(o.k, o.phase).status;
    if o.err.None? && o.phase != Provisioning {
      LogGrows(g, s0, o.y, o.k, y.log, Provisioning, s);
      var log := HandleState(g, y, k).y.log;
      if Up(g, o.y) {
        assert log[|o.y.log|] == s;
      }
    }
    hide HandleState;
  }

  /** In every run, whatever the others do between its calls: a reconcile that calls the Provisioning handler
      stores Active if and only if the template is fetched, every check finds its part ready at its own call,
      and the two calls that store get through. */
  lemma ActiveExactlyWhenChecked(g: Setting, y: Sys, events: seq<Event>)
    requires Start(g, y)
    ensures var r := Run(g, y, events);
            var e := HandlerEntry(g, r);
            e.Some? && e.value.k.status.phase == Provisioning ==>
              (StoresActive(Reconcile(g, r).y.log, |e.value.y.log|) <==> AllGetThrough(g, e.value.y, e.value.k))
  {
    hide HandlerEntry, Run, Start, Inv, Later, Enter, Holds, Reconcile, HandleState, Up, AllGetThrough, StoresActive;
    StartIsThere(g, y);
    var r := Run(g, y, events);
    Reachable(g, y, events);
    EntryHolds(g, FirstSpec(y), r);
    EntryIs(g, r);
    var e := HandlerEntry(g, r);
    if e.Some? && e.value.k.status.phase == Provisioning {
      ProvisioningStores(g, FirstSpec(y), e.value.y, e.value.k);
    }
  }

  // ---- recovery ----

  /** A Kode whose recovery handler the next reconcile will call. */
  predicate Recovering(k: Kode) {
    k.finalizer && !k.deleting && k.status.phase == Failed && k.generation == k.status.observedGeneration
  }

  /** Bounded recovery: everything a reconcile of a recovering Kode stores has one attempt more, up to five,
      and with five only Failed is stored and the reconcile does not fail. */
  lemma RecoveryIsBounded(g: Setting, y: Sys, events: seq<Event>)
    requires Start(g, y)
    ensures var r := Run(g, y, events);
            var z := Enter(g, r);
            var d := Reconcile(g, r);
            Up(g, r) && z.w.kode.Some? && Recovering(z.w.kode.value) ==>
              var n := z.w.kode.value.status.retryCount;
              && 0 <= n <= MAX_RETRIES && r.log <= d.y.log
              && (forall i :: |r.log| <= i < |d.y.log| ==> d.y.log[i].retryCount == if n < MAX_RETRIES then n + 1 else MAX_RETRIES)
              && (n == MAX_RETRIES ==> d.err.None? && forall i :: |r.log| <= i < |d.y.log| ==> d.y.log[i].phase == Failed)
  {
    hide HandlerEntry, Run, Start, Inv, Later, Enter, Holds, Reconcile, HandleState, StatusOk, WillWake, AtomicFrom;
    StartIsThere(g, y);
    var r := Run(g, y, events);
    var z := Enter(g, r);
    Reachable(g, y, events);
    EnterKeeps(g, FirstSpec(y), r);
    ReconcileKeeps(g, FirstSpec(y), r);
    if Up(g, r) && z.w.kode.Some? && Recovering(z.w.kode.value) {
      var k := z.w.kode.value;
      RetriesInRange(g, FirstSpec(y), z.w);
      forall s: Status | MayStore(k, s)
        ensures s.retryCount == if k.status.retryCount < MAX_RETRIES then k.status.retryCount + 1 else MAX_RETRIES
      {
        RecoveringStores(k, s);
      }
      if k.status.retryCount == MAX_RETRIES {
        FailedEntry(g, r);
        EntryHolds(g, FirstSpec(y), r);
        EntryIs(g, r);
        ExhaustedHandlerStays(g, FirstSpec(y), z, k);
        EnterLog(g, r);
      }
    }
    hide MayStore;
  }

  lemma EnterLog(g: Setting, y: Sys)
    ensures Enter(g, y).log == y.log
  {
    hide Others;
  }

  lemma RetriesInRange(g: Setting, s0: KodeSpec, w: World)
    requires Inv(g, s0, w) && w.kode.Some?
    ensures 0 <= w.kode.value.status.retryCount <= MAX_RETRIES
  {
    hide OrphanInv, NamesInv, UrlInv, HasAll;
  }

  lemma RecoveringStores(k: Kode, s: Status)
    requires Recovering(k) && MayStore(k, s) && 0 <= k.status.retryCount <= MAX_RETRIES
    ensures s.retryCount == if k.status.retryCount < MAX_RETRIES then k.status.retryCount + 1 else MAX_RETRIES
  {
  }

  lemma FailedEntry(g: Setting, y: Sys)
    requires Up(g, y) && Enter(g, y).w.kode.Some? && Recovering(Enter(g, y).w.kode.value)
    ensures HandlerEntry(g, y) == Some(Entry(Enter(g, y), Enter(g, y).w.kode.value))
  {
    hide Enter, UpdateStatus;
  }
}

/** What every run keeps: a new Kode, any events, any interleaving of the user, the environment and the
    EntryPoint controller before each API call, any calls failing. */
module Runs {
  import opened KodeTypes
  import opened Cluster
  import opened Invariants
  import opened Handlers
  import opened Safety
  import opened HandlerSafety
  import opened ReconcileSafety
  import C = Conditions
  import D = Desired
  import R = Resources
  import T = Templates
  import V = Convergence

  predicate Untouched(s: Status) {
    && (s.phase == Uninitialised || s.phase == Unknown)
    && s.retryCount == 0 && s.deletionCycle == 0 && s.kodePort == 0 && s.kodeUrl.None?
  }

  /** A Kode nobody has worked on yet. Someone may have put the phase Unknown into it. */
  ghost predicate Start(g: Setting, y: Sys) {
    && y.w.kode.Some? && !y.w.kode.value.deleting
    && Untouched(y.w.kode.value.status)
    && (y.w.kode.value.finalizer ==> y.w.kode.value.status.phase == Unknown)
    && (if y.w.kode.value.status.phase == Unknown
        then y.w.kode.value.status.observedGeneration <= y.w.kode.value.generation
        else y.w.kode.value.status.observedGeneration < y.w.kode.value.generation)
    && y.w.ep.None? && y.w.route.None? && y.w.released.None?
    && y.w.owned == {} && (forall key :: IsOwn(g, key) ==> !Exists(y.w.children, key))
  }

  function FirstSpec(y: Sys): KodeSpec
    requires y.w.kode.Some?
  {
    y.w.kode.value.spec
  }

  lemma StartIsThere(g: Setting, y: Sys)
    requires Start(g, y)
    ensures y.w.kode.Some?
  {
    hide IsOwn, Exists;
  }

  lemma StartInv(g: Setting, y: Sys)
    requires Start(g, y)
    ensures Inv(g, FirstSpec(y), y.w)
  {
    assert !Exists(y.w.children, ServiceKey);
    hide KeepsNames, KeepsRef, TheUrl, ThePort, OwnUnder;
  }

  lemma StepKeeps(g: Setting, s0: KodeSpec, y: Sys, e: Event)
    requires Inv(g, s0, y.w)
    ensures Inv(g, s0, Step(g, y, e).w)
  {
    ReconcileKeeps(g, s0, y);
    EnterKeeps(g, s0, y);
    hide Inv, Reconcile, Enter, ReconcileOk;
  }

  lemma {:induction false} RunKeeps(g: Setting, s0: KodeSpec, y: Sys, events: seq<Event>)
    requires Inv(g, s0, y.w)
    ensures Inv(g, s0, Run(g, y, events).w)
    decreases |events|
  {
    hide Inv, Step;
    if events != [] {
      StepKeeps(g, s0, y, events[0]);
      RunKeeps(g, s0, Step(g, y, events[0]), events[1..]);
    }
  }

  lemma Reachable(g: Setting, y: Sys, events: seq<Event>)
    requires Start(g, y)
    ensures Inv(g, FirstSpec(y), Run(g, y, events).w)
  {
    StartInv(g, y);
    RunKeeps(g, FirstSpec(y), y, events);
  }

  // ---- no orphans ----

  /** Whatever the user edits: once the operator has taken the finalizer off, the Kode is gone and so is
      every child that the reconcile which took it off named. */
  lemma ReleasedMeansGone(g: Setting, y: Sys, events: seq<Event>)
    requires Start(g, y)
    ensures var w := Run(g, y, events).w;
            w.released.Some? ==>
              && w.kode.None?
              && !Exists(w.children, SetKey) && !Exists(w.children, ServiceKey)
              && !Exists(w.children, SecretKey(D.SecretName(g.name, w.released.value)))
              && (!g.testMode && D.ManagesClaim(w.released.value) ==> !Exists(w.children, ClaimKey(D.ClaimName(g.name, w.released.value))))
  {
    Reachable(g, y, events);
    var w := Run(g, y, events).w;
    hide Run, Start, StatusInv, NamesInv, UrlInv, Exists, KeepsNames, KeepsRef, IsOwn;
    if w.released.Some? {
      var keys := R.RequiredAbsent(g, w.released.value);
      assert keys[0] == SetKey && keys[1] == SecretKey(D.SecretName(g.name, w.released.value)) && keys[2] == ServiceKey;
      assert !g.testMode && D.ManagesClaim(w.released.value) ==> keys[3] == ClaimKey(D.ClaimName(g.name, w.released.value));
    }
  }

  /** Whatever is edited, whenever, and whichever calls fail: an own child that outlives the finalizer is
      never the stateful set or the service; it is the secret after the spec was made to name another one, or
      the claim after the spec stopped managing it or in test mode; and it carries the owner reference. */
  lemma OnlyRenamedAreLeft(g: Setting, y: Sys, events: seq<Event>)
    requires Start(g, y)
    ensures var w := Run(g, y, events).w;
            !Live(w) ==> forall key :: IsOwn(g, key) && Exists(w.children, key) ==>
              && key in w.owned && w.released.Some?
              && match key
                 case SetKey => false
                 case ServiceKey => false
                 case SecretKey(n) => D.SecretName(g.name, w.released.value) != n
                 case ClaimKey(n) => g.testMode || !D.ManagesClaim(w.released.value)
  {
    hide Run, Start, StatusInv, NamesInv, UrlInv, Exists, KeepsNames, KeepsRef, R.RequiredAbsent, D.SecretName;
    StartIsThere(g, y);
    Reachable(g, y, events);
    ReleasedMeansGone(g, y, events);
  }

  /** No orphans: while no edit renames the children, a Kode without finalizer, or gone, has no stateful
      set, service or own secret, and outside test mode no own claim. */
  lemma NoOrphans(g: Setting, y: Sys, events: seq<Event>)
    requires Start(g, y) && KeepsNames(g, FirstSpec(y))
    ensures var w := Run(g, y, events).w;
            !Live(w) ==> forall key :: IsOwn(g, key) && !(g.testMode && key.ClaimKey?) ==> !Exists(w.children, key)
  {
    var w := Run(g, y, events).w;
    Reachable(g, y, events);
    ReleasedMeansGone(g, y, events);
    hide Run, Start, StatusInv, UrlInv, Exists, KeepsNames, KeepsRef;
    if !Live(w) && w.released.Some? {
      forall key | IsOwn(g, key) && key in w.owned && !(g.testMode && key.ClaimKey?)
        ensures !Exists(w.children, key)
      {
        assert OwnUnder(g, FirstSpec(y), key) && SameNames(w.released.value, FirstSpec(y));
      }
    }
  }

  // ---- the status ----

  /** In every reachable state, and in every copy the EntryPoint controller holds: the conditions that the
      Active handler dereferences exist, the retry count is in 0..5, the deletion cycle is 0 outside
      Deleting; and a copy that will be written as Failed starts a new episode with retry count 0. */
  lemma EveryStatusIsOk(g: Setting, y: Sys, events: seq<Event>)
    requires Start(g, y)
    ensures var w := Run(g, y, events).w;
            && (w.kode.Some? ==> StatusOk(w.kode.value.status) && (w.kode.value.status.phase == Deleting ==> w.kode.value.deleting))
            && (w.ep.Some? ==> StatusOk(w.ep.value.kode.status) && w.ep.value.kode.status.retryCount == 0)
  {
    Reachable(g, y, events);
    hide Run, Start, StatusOk;
  }

  /** On a good copy the Active handler never dereferences nil. */
  lemma ActiveHandlerNeverPanics(g: Setting, s0: KodeSpec, y: Sys, k: Kode)
    requires Holds(g, s0, y, k, y.log, Active)
    ensures HandleActive(g, y, k).err != Some(NilPointer)
  {
    hide Holds, StayActive, FetchTemplates, R.CheckResourcesReady, UpdateStatus, Mark2, Mark3, Failing, D.InitConfig,
      CfgOf, T.Visible, HasAll;
    SameObserved(g, s0, y, k, y.log, Active);
    var f := FetchTemplates(g, y, k);
    FetchHolds(g, s0, y, k, y.log, Active);
    FetchCopies(g, y, k);
    SameObserved(g, s0, f.y, f.k, y.log, Active);
    if f.out.Ok? {
      var cfg := D.InitConfig(g.name, f.k.spec, f.out.value);
      var r := R.CheckResourcesReady(g, f.y, f.k.spec, cfg);
      ReadyHolds(g, s0, f.y, f.k.spec, cfg, f.k, y.log, Active);
      var m := f.k.(status := f.k.status.(kodePort := f.out.value.spec.port));
      ConditionsDecide(f.k.status, m.status);
      StaysWithoutPanic(g, UpdateStatus(g, r.y, m.status).y, m);
      StaysWithoutPanic(g, r.y, f.k);
      SaveErrs(g, r.y, m.status);
      forall n: Kode { SaveErrs(g, r.y, n.status); }
    }
    forall n: Kode { SaveErrs(g, y, n.status); }
  }

  lemma StaysWithoutPanic(g: Setting, y: Sys, k: Kode)
    requires HasAll(k.status)
    ensures StayActive(g, y, k).err != Some(NilPointer)
  {
    RefreshAllMeaning(k.status, y.t);
    hide RefreshAll, HasAll, Failing, C.Is, Others;
  }

  predicate Follows(k: Kode, s: Status) {
    && MayStore(k, s)
    && (s.phase == Failed ==> k.status.phase == Failed)
    && (k.deleting <==> s.phase == Deleting)
  }

  /** Each status a reconcile stores, given the Kode it read: the transition table of the whole
      controller. Failed is never newly entered by it. */
  lemma StoredPhases(g: Setting, y: Sys, events: seq<Event>)
    requires Start(g, y)
    ensures var r := Run(g, y, events);
            var z := Enter(g, r);
            var log := Reconcile(g, r).y.log;
            Up(g, r) && z.w.kode.Some? ==>
              r.log <= log && forall i :: |r.log| <= i < |log| ==> Follows(z.w.kode.value, log[i])
  {
    hide *;
    StartIsThere(g, y);
    var r := Run(g, y, events);
    Reachable(g, y, events);
    StoresFollow(g, FirstSpec(y), r);
  }

  lemma StoresFollow(g: Setting, s0: KodeSpec, r: Sys)
    requires Inv(g, s0, r.w)
    ensures var z := Enter(g, r);
            var log := Reconcile(g, r).y.log;
            Up(g, r) && z.w.kode.Some? ==>
              r.log <= log && forall i :: |r.log| <= i < |log| ==> Follows(z.w.kode.value, log[i])
  {
    var z := Enter(g, r);
    EnterKeeps(g, s0, r);
    assert z.w.kode.Some? ==> z.w.kode.value.status.phase == Deleting ==> z.w.kode.value.deleting by { hide Enter, StatusOk; }
    hide Reconcile, Enter, Inv, WillWake, AtomicFrom, Follows, MayStore, Later;
    ReconcileKeeps(g, s0, r);
    forall s: Status | z.w.kode.Some? && MayStore(z.w.kode.value, s)
      ensures Follows(z.w.kode.value, s)
    {
      MayStoreFollows(z.w.kode.value, s);
    }
  }

  lemma MayStoreFollows(k: Kode, s: Status)
    requires MayStore(k, s) && (k.status.phase == Deleting ==> k.deleting)
    ensures Follows(k, s)
  {
    hide NextRetry;
  }

  lemma ExhaustedGivesUp(g: Setting, y: Sys, k: Kode)
    requires k.status.retryCount >= MAX_RETRIES
    ensures HandleFailed(g, y, k).phase == Failed && HandleFailed(g, y, k).err.None?
  {
    hide Mark3, UpdateStatus;
  }

  lemma ExhaustedHandlerStays(g: Setting, s0: KodeSpec, y: Sys, k: Kode)
    requires Holds(g, s0, y, k, y.log, Failed) && k.status.retryCount >= MAX_RETRIES
    ensures var d := HandleState(g, y, k);
            d.err.None? && y.log <= d.y.log && forall i :: |y.log| <= i < |d.y.log| ==> d.y.log[i].phase == Failed
  {
    hide HandleFailed, Inv, Holds, Kept, UpdateStatus, LogIs;
    SameObserved(g, s0, y, k, y.log, Failed);
    FailedKept(g, s0, y, k);
    ExhaustedGivesUp(g, y, k);
    KeptIsLogged(g, s0, k.generation, NextRetry(k.status.retryCount), HandleFailed(g, y, k), y.log, Failed);
  }

  lemma KeptIsLogged(g: Setting, s0: KodeSpec, generation: int, retries: int, o: Out, past: seq<Status>, ph: Phase)
    requires Kept(g, s0, generation, retries, o, past, ph)
    ensures past <= o.y.log && forall i :: |past| <= i < |o.y.log| ==> o.y.log[i].phase == ph
  {
    hide Inv, Holds, Reported, Awake;
  }

  /** Nothing is left to do, or the last status stored differs in phase from the one read, so that a
      watch event follows. */
  ghost predicate Woken(g: Setting, r: Sys, d: Done) {
    !Live(d.y.w)
    || (Enter(g, r).w.kode.Some? && |d.y.log| > |r.log| && Last(d.y.log).phase != Enter(g, r).w.kode.value.status.phase)
  }

  /** No lost wakeup: with positive intervals, a reconcile that returns no error and an empty result needs none. */
  lemma NoLostWakeup(g: Setting, y: Sys, events: seq<Event>)
    requires Start(g, y) && g.interval > 0 && g.longInterval > 0
    ensures var d := Reconcile(g, Run(g, y, events));
            d.err.None? && IsEmptyResult(d.result) ==> Woken(g, Run(g, y, events), d)
  {
    hide *;
    StartIsThere(g, y);
    Reachable(g, y, events);
    WokenAfter(g, FirstSpec(y), Run(g, y, events));
  }

  lemma WokenAfter(g: Setting, s0: KodeSpec, r: Sys)
    requires Inv(g, s0, r.w) && g.interval > 0 && g.longInterval > 0
    ensures var d := Reconcile(g, r); d.err.None? && IsEmptyResult(d.result) ==> Woken(g, r, d)
  {
    hide Reconcile, Enter, Inv, AllMayStore, AtomicFrom, Live;
    ReconcileKeeps(g, s0, r);
  }

  /** Error atomicity: a reconcile that fails has stored only the phase it works in and the generation it
      read, in every phase but Unknown. */
  lemma ErrorsAreAtomic(g: Setting, y: Sys, events: seq<Event>)
    requires Start(g, y)
    ensures var r := Run(g, y, events);
            var z := Enter(g, r);
            var d := Reconcile(g, r);
            Up(g, r) && z.w.kode.Some? ==> AtomicFrom(d, r.log, z.w.kode.value)
  {
    var r := Run(g, y, events);
    Reachable(g, y, events);
    ReconcileKeeps(g, FirstSpec(y), r);
    hide Run, Reconcile, Enter, Start, Inv, AllMayStore, AtomicFrom, WillWake;
  }

  /** A handler's error is reported: its copy has Ready, Available and Progressing False and the error in
      LastError, and if the last status write got through, so has the stored Kode. */
  lemma HandlerErrorsAreReported(g: Setting, s0: KodeSpec, y: Sys, k: Kode)
    requires Holds(g, s0, y, k, y.log, k.status.phase) && k.status.phase != Uninitialised
    ensures Reported(g, Handle(g, y, k))
  {
    if k.status.phase == Unknown {
      UnknownKept(g, s0, y, k);
      HandlesUnknown(g, y, k);
    } else {
      HandleKept(g, s0, y, k);
    }
    hide Holds, Handle, Inv, Allowed, AllFalse, HandleUnknown;
  }

  /** The exception: every error of the state machine on an Unknown Kode comes after the new phase has
      been stored. */
  lemma UnknownHandlerErrors(g: Setting, s0: KodeSpec, y: Sys, k: Kode)
    requires Holds(g, s0, y, k, y.log, Unknown)
    ensures var o := HandleUnknown(g, y, k);
            HandleState(g, y, k).err.Some? <==> o.phase != Unknown && !Up(g, o.y)
    ensures HandleState(g, y, k).err.Some? ==>
              |HandleState(g, y, k).y.log| > |y.log| && Last(HandleState(g, y, k).y.log).phase != Unknown
  {
    var o := HandleUnknown(g, y, k);
    UnknownKept(g, s0, y, k);
    HandlesUnknown(g, y, k);
    SameObserved(g, s0, y, k, y.log, Unknown);
    UnknownStoresPhase(g, s0, y, k);
    StoredWhenUp(g, o.y, WithPhase(o.k, o.phase).status);
    SameLogWhenDown(g, o.y, WithPhase(o.k, o.phase).status);
    hide Handle, HandleUnknown, Inv, Holds, UpdateStatus, UnknownLog, Allowed;
  }

  lemma SaveAlone(g: Setting, y: Sys, s: Status)
    requires Alone(g) && y.w.kode.Some?
    ensures UpdateStatus(g, y, s) ==
            if Up(g, y) then Ack(Sys(y.w.(kode := Some(y.w.kode.value.(status := s))), y.t + 1, y.log + [s]), None)
            else Ack(y.(t := y.t + 1), Some(Refused))
  {
    V.EnterAlone(g, y);
    hide Enter, Alone, Up;
  }

  lemma FetchFailsAlone(g: Setting, y: Sys, k: Kode)
    requires Alone(g) && T.Visible(g.store, k.spec.templateRef).Bad?
    ensures var f := FetchTemplates(g, y, k); f.y == y.(t := y.t + 1) && f.k == k && f.out.Bad?
  {
    V.EnterAlone(g, y);
    hide Enter, Alone, Up, T.Visible;
  }

  /** Without its template an Unknown Kode is put into Pending by the third call of its handler. */
  lemma UnknownGoesPending(g: Setting, y: Sys, k: Kode)
    requires Alone(g) && Up(g, y) && g.script(y.t + 2).ok
    requires y.w.kode == Some(k) && !k.deleting && T.Visible(g.store, k.spec.templateRef).Bad?
    ensures var o := HandleUnknown(g, y, k);
            && o.phase == Pending && o.err.None? && o.y.t == y.t + 3
            && o.y.w.kode.Some? && o.y.w.kode.value.status.phase == Pending
  {
    Mark3Only(k, Indeterminate, StateUnknown, Indeterminate, StateUnknown, Indeterminate, StateUnknown, y.t);
    var m := Mark3(k, Indeterminate, StateUnknown, Indeterminate, StateUnknown, Indeterminate, StateUnknown, y.t);
    SaveAlone(g, y, m.status);
    var u := UpdateStatus(g, y, m.status);
    FetchFailsAlone(g, u.y, m);
    var z := FetchTemplates(g, u.y, m).y;
    SaveAlone(g, z, WithPhase(m, Pending).status);
    assert Up(g, z);
    hide Mark3, Alone, T.Visible, Enter, FetchTemplates, UpdateStatus;
  }

  lemma UnknownFailsAfterStoring(g: Setting, y: Sys, k: Kode)
    requires Alone(g) && Up(g, y) && g.script(y.t + 2).ok && !g.script(y.t + 3).ok
    requires y.w.kode == Some(k) && k.status.phase == Unknown && !k.deleting && T.Visible(g.store, k.spec.templateRef).Bad?
    ensures var d := HandleState(g, y, k);
            d.err.Some? && d.y.w.kode.Some? && d.y.w.kode.value.status.phase == Pending
  {
    hide HandleUnknown, Handle, UpdateStatus, Alone, T.Visible;
    UnknownGoesPending(g, y, k);
    HandlesUnknown(g, y, k);
    var o := HandleUnknown(g, y, k);
    SaveAlone(g, o.y, WithPhase(o.k, Pending).status);
  }

  lemma UnknownReconcileFails(g: Setting, y: Sys)
    requires Alone(g) && y.w.kode.Some? && UnknownReads(g, y.w.kode.value)
    requires Up(g, y) && g.script(y.t + 1).ok && g.script(y.t + 3).ok && !g.script(y.t + 4).ok
    ensures var d := Reconcile(g, y);
            d.err.Some? && d.y.w.kode.Some? && d.y.w.kode.value.status.phase == Pending
  {
    V.EnterAlone(g, y);
    hide HandleState, Enter, Alone, T.Visible;
    UnknownFailsAfterStoring(g, Enter(g, y), y.w.kode.value);
  }

  predicate UnknownReads(g: Setting, k: Kode) {
    && k.finalizer && !k.deleting && k.status.phase == Unknown && k.generation == k.status.observedGeneration && k.status.retryCount == 0
    && T.Visible(g.store, k.spec.templateRef).Bad?
  }

  /** Call 4, the second write of the determined phase, fails; nobody else acts; the store is empty. */
  function UnknownSetting(): Setting {
    Setting("k", T.Store(map[], map[], map[]), D.Lib((a, b) => a, n => "", a => a), false, 1, 1, n => Tick([], n != 4))
  }

  function UnknownStart(): Sys {
    var s := Status(Unknown, 1, [], None, None, None, 0, None, 0, 0);
    var k := Kode(KodeSpec(Reference(T.CONTAINER, "t", Some("ns")), None, None, None, None, []), 1, false, true, s);
    Sys(World(Some(k), Children(map[], None, None, map[], [], {}), None, None, {}, None), 0, [])
  }

  lemma UnknownStarts()
    ensures Start(UnknownSetting(), UnknownStart())
    ensures Alone(UnknownSetting()) && UnknownStart().t == 0 && forall n: nat :: UnknownSetting().script(n).ok <==> n != 4
    ensures var k := UnknownStart().w.kode; k.Some? && k.value.status.phase == Unknown && UnknownReads(UnknownSetting(), k.value)
  {
  }

  /** The exception is reached by a run: a Kode with the phase Unknown whose template is not in the store.
      The first reconcile fails, its call number 4 being refused, and has stored Pending. */
  lemma UnknownIsNotAtomic()
    ensures var g := UnknownSetting();
            var d := Reconcile(g, Run(g, UnknownStart(), []));
            && Start(g, UnknownStart()) && UnknownStart().w.kode.value.status.phase == Unknown
            && d.err.Some? && d.y.w.kode.Some? && d.y.w.kode.value.status.phase == Pending
  {
    UnknownStarts();
    hide Reconcile, Start, UnknownSetting, UnknownStart, UnknownReads;
    UnknownReconcileFails(UnknownSetting(), UnknownStart());
    assert Run(UnknownSetting(), UnknownStart(), []) == UnknownStart();
  }

  function Last(log: seq<Status>): Status
    requires log != []
  {
    log[|log| - 1]
  }

  lemma SameLogWhenDown(g: Setting, y: Sys, s: Status)
    ensures UpdateStatus(g, y, s).err.Some? ==> UpdateStatus(g, y, s).y.log == y.log
  {
    hide Others;
  }

  lemma UnknownStoresPhase(g: Setting, s0: KodeSpec, y: Sys, k: Kode)
    requires Holds(g, s0, y, k, y.log, Unknown)
    ensures var o := HandleUnknown(g, y, k);
            o.phase != Unknown ==> |o.y.log| > |y.log| && Last(o.y.log).phase == o.phase
  {
    var m := Mark3(k, Indeterminate, StateUnknown, Indeterminate, StateUnknown, Indeterminate, StateUnknown, y.t);
    Mark3Holds(g, s0, y, k, Indeterminate, StateUnknown, Indeterminate, StateUnknown, Indeterminate, StateUnknown, y.t, y.log, Unknown);
    Mark3Meaning(k, Indeterminate, StateUnknown, Indeterminate, StateUnknown, Indeterminate, StateUnknown, y.t);
    SaveHolds(g, s0, y, m, y.log, Unknown);
    var u := UpdateStatus(g, y, m.status);
    SameObserved(g, s0, u.y, m, y.log, Unknown);
    DeterminedHolds(g, s0, u.y, m, y.log);
    var d := DetermineResourceState(g, u.y, m);
    ConditionsDecide(m.status, d.k.status);
    PhaseHolds(g, s0, d.y, d.k, y.log, d.phase);
    StoredLog(g, s0, d.y, WithPhase(d.k, d.phase), d.y.log, d.phase);
    assert y.log <= d.y.log by { hide Inv, CopyOk; }
    hide Holds, Mark3, UpdateStatus, DetermineResourceState, HasAll;
  }

  // ---- URL publication ----

  /** While no edit changes the template reference: a published URL, stored or in a copy of the EntryPoint
      controller, is the one computed from the entry point; a route exists for its host; and the route's
      backend is the Kode's service at the template's port, the only port the service has. */
  lemma UrlIsServed(g: Setting, y: Sys, events: seq<Event>)
    requires Start(g, y) && KeepsRef(g, FirstSpec(y))
    ensures var w := Run(g, y, events).w;
            && (w.kode.Some? ==> Served(g, FirstSpec(y), w, w.kode.value.status))
            && (w.ep.Some? ==> Served(g, FirstSpec(y), w, w.ep.value.kode.status))
  {
    Reachable(g, y, events);
    hide Run, Start, StatusInv, OrphanInv, NamesInv, KeepsNames, KeepsRef, TheUrl, ThePort;
  }

  predicate Served(g: Setting, s0: KodeSpec, w: World, s: Status) {
    s.kodeUrl.Some? ==>
      && s.kodeUrl == TheUrl(g, s0)
      && w.route.Some?
      && w.route.value.host == s.kodeUrl.value.domain
      && w.route.value.backend == D.ServiceName(g.name)
      && Some(w.route.value.port) == ThePort(g, s0)
      && (w.children.service.Some? ==> w.children.service.value.ports == [ServicePort(TCP, w.route.value.port, w.route.value.port)])
  }
}

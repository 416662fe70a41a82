/** Recovery episodes over runs: an episode starts when the EntryPoint controller's report of a failure makes
    the Kode Failed, with retry count 0; while it lasts each stored attempt adds one; and there are at most five. */
module Episodes {
  import opened KodeTypes
  import opened Cluster
  import opened Invariants
  import opened Handlers
  import opened HandlerRuns
  import opened ReconcileSafety
  import opened Runs
  import D = Desired
  import Del = Deletion
  import R = Resources
  import T = Templates

  /** Failed, with nothing else under way: the recovery handler is next. */
  predicate InEpisode(w: World) { w.kode.Some? && Recovering(w.kode.value) && w.ep.None? }

  // ---- nobody else writes the status meanwhile ----

  /** The status as the Kode controller last stored it, if it has stored one since `past`. */
  function Current(log: seq<Status>, past: seq<Status>, s: Status): Status {
    if |log| > |past| then log[|log| - 1] else s
  }

  /** Only the Kode controller writes the status: no EntryPoint reconcile is in flight, and none starts. */
  ghost predicate OnlyWriter(y: Sys, past: seq<Status>, s: Status) {
    && y.w.ep.None? && past <= y.log
    && Current(y.log, past, s).phase != Active
    && (y.w.kode.Some? ==> y.w.kode.value.status == Current(y.log, past, s))
  }

  lemma {:induction false} OthersTracked(g: Setting, w: World, acts: seq<Act>, now: nat, s: Status)
    requires w.ep.None? && s.phase != Active && (w.kode.Some? ==> w.kode.value.status == s)
    ensures var v := Others(g, w, acts, now); v.ep.None? && (v.kode.Some? ==> v.kode.value.status == s)
    decreases |acts|
  {
    if acts != [] {
      var v := Act1(g, w, acts[0], now);
      assert v.ep.None? && (v.kode.Some? ==> v.kode.value.status == s) by {
        EpIdle(g, w, now);
        hide EpAdvance, Remove, Terminate;
      }
      hide Act1;
      OthersTracked(g, v, acts[1..], now, s);
    }
  }

  lemma EpIdle(g: Setting, w: World, now: nat)
    requires w.ep.None?
    ensures EpAdvance(g, w, true, now) == w && EpAdvance(g, w, false, now) == w
  {
    hide EpLookup, EpFailing, EpEnsured, EpPublishing;
  }

  lemma EnterTracked(g: Setting, y: Sys, past: seq<Status>, s: Status)
    requires OnlyWriter(y, past, s)
    ensures OnlyWriter(Enter(g, y), past, s)
  {
    OthersTracked(g, y.w, g.script(y.t).acts, y.t, Current(y.log, past, s));
    hide Others;
  }

  lemma SaveTracked(g: Setting, y: Sys, past: seq<Status>, s: Status, t: Status)
    requires OnlyWriter(y, past, s) && t.phase != Active
    ensures OnlyWriter(UpdateStatus(g, y, t).y, past, s)
  {
    EnterTracked(g, y, past, s);
    hide Enter;
  }

  lemma FetchTracked(g: Setting, y: Sys, k: Kode, past: seq<Status>, s: Status)
    requires OnlyWriter(y, past, s) && k.status.phase != Active
    ensures var f := FetchTemplates(g, y, k); OnlyWriter(f.y, past, s) && f.k.status.phase == k.status.phase
  {
    EnterTracked(g, y, past, s);
    var t := T.Visible(g.store, k.spec.templateRef);
    if t.Ok? {
      SaveTracked(g, Enter(g, y), past, s, k.status.(runtime := Some(t.value.spec.runtimeClass)));
    }
    hide Enter, UpdateStatus, OnlyWriter, T.Visible, T.IsContainerKind;
  }

  lemma {:induction false} ChecksTracked(g: Setting, y: Sys, spec: KodeSpec, cfg: D.Config, checks: seq<R.Check>, past: seq<Status>, s: Status)
    requires OnlyWriter(y, past, s)
    ensures OnlyWriter(R.RunChecks(g, y, spec, cfg, checks).y, past, s)
    decreases |checks|
  {
    if checks != [] {
      EnterTracked(g, y, past, s);
      hide Enter, OnlyWriter;
      var r := R.RunCheck(g, y, spec, cfg, checks[0]);
      assert r.y == y || r.y == Enter(g, y);
      hide R.RunCheck;
      if r.out.Ok? && r.out.value {
        ChecksTracked(g, r.y, spec, cfg, checks[1..], past, s);
      }
    }
  }

  lemma RecoveryTracked(g: Setting, y: Sys, k: Kode, past: seq<Status>, s: Status)
    requires OnlyWriter(y, past, s) && k.status.phase != Active
    ensures var d := DetermineRecoveryPhase(g, y, k); OnlyWriter(d.y, past, s) && d.phase != Active
  {
    FetchTracked(g, y, k, past, s);
    var f := FetchTemplates(g, y, k);
    hide FetchTemplates, OnlyWriter, R.RunChecks;
    if f.out.Ok? {
      ChecksTracked(g, f.y, f.k.spec, D.InitConfig(g.name, f.k.spec, f.out.value), R.CHECKS, past, s);
    }
  }

  lemma FailedTracked(g: Setting, y: Sys, k: Kode, past: seq<Status>, s: Status)
    requires OnlyWriter(y, past, s) && k.status.phase == Failed
    ensures var o := HandleFailed(g, y, k); OnlyWriter(o.y, past, s) && o.phase != Active && o.err.None?
  {
    hide OnlyWriter, UpdateStatus, DetermineRecoveryPhase, Mark3;
    Mark3Only(k, False, MaxRetriesExceeded, False, MaxRetriesExceeded, False, MaxRetriesExceeded, y.t);
    Mark3Only(k, False, AttemptingRecovery, False, AttemptingRecovery, True, AttemptingRecovery, y.t);
    if k.status.retryCount >= MAX_RETRIES {
      SaveTracked(g, y, past, s, Mark3(k, False, MaxRetriesExceeded, False, MaxRetriesExceeded, False, MaxRetriesExceeded, y.t).status);
    } else {
      var m := Attempting(k, y.t);
      SaveTracked(g, y, past, s, m.status);
      RecoveryTracked(g, UpdateStatus(g, y, m.status).y, m, past, s);
    }
  }

  lemma RecoveringTracked(g: Setting, y: Sys, past: seq<Status>, s: Status)
    requires OnlyWriter(y, past, s) && Up(g, y) && Enter(g, y).w.kode.Some? && Recovering(Enter(g, y).w.kode.value)
    ensures OnlyWriter(Reconcile(g, y).y, past, s)
  {
    FailedEntry(g, y);
    EntryIs(g, y);
    EnterTracked(g, y, past, s);
    var z := Enter(g, y);
    var k := z.w.kode.value;
    FailedTracked(g, z, k, past, s);
    var o := HandleFailed(g, z, k);
    SaveTracked(g, o.y, past, s, WithPhase(o.k, o.phase).status);
    FailedIsHandled(g, z, k);
    hide Reconcile, HandleFailed, UpdateStatus, OnlyWriter, Enter, HandlerEntry, HandleState;
  }

  lemma FailedIsHandled(g: Setting, y: Sys, k: Kode)
    requires k.status.phase == Failed
    ensures HandleState(g, y, k) == Advance(g, Failed, HandleFailed(g, y, k))
  {
    hide HandleFailed, Advance;
  }

  // ---- one step of an episode ----

  lemma MismatchLeaves(g: Setting, s0: KodeSpec, y: Sys)
    requires Inv(g, s0, y.w) && InEpisode(y.w) && Up(g, y)
    requires var k := Enter(g, y).w.kode; k.Some? && !k.value.deleting && k.value.generation != k.value.status.observedGeneration
    ensures !InEpisode(Reconcile(g, y).y.w)
  {
    var z := Enter(g, y);
    EnterTracked(g, y, y.log, y.w.kode.value.status);
    EnterKeeps(g, s0, y);
    EnterKeeps(g, s0, z);
    EnterTracked(g, z, y.log, y.w.kode.value.status);
    EnterLog(g, y);
    EnterLog(g, z);
    StatusObserved(g, s0, z.w);
    hide Enter, Inv, Mark3, OrphanInv;
  }

  lemma StatusObserved(g: Setting, s0: KodeSpec, w: World)
    requires Inv(g, s0, w) && w.kode.Some?
    ensures w.kode.value.status.observedGeneration <= w.kode.value.generation
  {
    hide OrphanInv, NamesInv, UrlInv, StatusOk;
  }

  lemma DeletingLeaves(g: Setting, y: Sys)
    requires Enter(g, y).w.kode.Some? && Enter(g, y).w.kode.value.deleting
    ensures !InEpisode(Reconcile(g, y).y.w)
  {
    Del.DeletingStays(g, y);
    hide Reconcile, Enter;
  }

  /** The attempts stored by one event. */
  function AttemptIn(g: Setting, y: Sys, e: Event): nat {
    if e.ReconcileNow? && y.w.kode.Some? && y.w.kode.value.status.retryCount < MAX_RETRIES && |Step(g, y, e).log| > |y.log| then 1 else 0
  }

  function Retries(w: World): int
    requires w.kode.Some?
  {
    w.kode.value.status.retryCount
  }

  /** While the episode lasts the stored retry count counts the stored attempts. */
  lemma EpisodeStep(g: Setting, s0: KodeSpec, y: Sys, e: Event)
    requires Inv(g, s0, y.w) && InEpisode(y.w) && InEpisode(Step(g, y, e).w)
    ensures Retries(Step(g, y, e).w) == Retries(y.w) + AttemptIn(g, y, e)
  {
    var s := y.w.kode.value.status;
    EnterTracked(g, y, y.log, s);
    EnterLog(g, y);
    var z := Enter(g, y);
    if e.ReconcileNow? {
      EnterKeeps(g, s0, y);
      ReconcileKeeps(g, s0, y);
      hide Enter, Reconcile, Inv, ReconcileOk;
      if Up(g, y) && z.w.kode.Some? {
        var k := z.w.kode.value;
        if k.deleting {
          DeletingLeaves(g, y);
        } else if k.generation != k.status.observedGeneration {
          MismatchLeaves(g, s0, y);
        } else {
          RecoveringTracked(g, y, y.log, s);
          RetriesInRange(g, s0, z.w);
          StoredInEpisode(g, s0, Reconcile(g, y), y.log, k);
        }
      }
    }
  }

  /** What was stored last, if it still is Failed, has one attempt more below the limit. */
  lemma StoredInEpisode(g: Setting, s0: KodeSpec, d: Done, past: seq<Status>, k: Kode)
    requires ReconcileOk(g, s0, d, past, k) && Recovering(k) && 0 <= k.status.retryCount <= MAX_RETRIES
    ensures |d.y.log| > |past| ==>
              d.y.log[|d.y.log| - 1].retryCount == if k.status.retryCount < MAX_RETRIES then k.status.retryCount + 1 else k.status.retryCount
  {
    if |d.y.log| > |past| {
      RecoveringStores(k, d.y.log[|d.y.log| - 1]);
    }
    hide Inv, MayStore, WillWake, AtomicFrom;
  }

  // ---- whole episodes ----

  /** The episode lasts through these events. */
  ghost predicate Lasts(g: Setting, y: Sys, events: seq<Event>)
    decreases |events|
  {
    InEpisode(y.w) && (events != [] ==> Lasts(g, Step(g, y, events[0]), events[1..]))
  }

  function AttemptsIn(g: Setting, y: Sys, events: seq<Event>): nat
    decreases |events|
  {
    if events == [] then 0 else AttemptIn(g, y, events[0]) + AttemptsIn(g, Step(g, y, events[0]), events[1..])
  }

  lemma {:induction false} EpisodeCounts(g: Setting, s0: KodeSpec, y: Sys, events: seq<Event>)
    requires Inv(g, s0, y.w) && Lasts(g, y, events)
    ensures Run(g, y, events).w.kode.Some? && InEpisode(Run(g, y, events).w)
    ensures Retries(Run(g, y, events).w) == Retries(y.w) + AttemptsIn(g, y, events)
    decreases |events|
  {
    hide Inv, Step, AttemptIn;
    if events != [] {
      StepKeeps(g, s0, y, events[0]);
      EpisodeStep(g, s0, y, events[0]);
      EpisodeCounts(g, s0, Step(g, y, events[0]), events[1..]);
    }
  }

  /** An episode has at most five stored attempts: whatever led to it, and however long it lasts, the stored
      retry count is what it was at its start and the attempts stored since, and never more than five. */
  lemma EpisodeIsShort(g: Setting, y: Sys, before: seq<Event>, events: seq<Event>)
    requires Start(g, y)
    ensures var r := Run(g, y, before);
            Lasts(g, r, events) ==>
              && Run(g, r, events).w.kode.Some? && r.w.kode.Some?
              && Retries(Run(g, r, events).w) == Retries(r.w) + AttemptsIn(g, r, events)
              && 0 <= Retries(r.w) && AttemptsIn(g, r, events) <= MAX_RETRIES - Retries(r.w)
  {
    hide Start, Inv, Step, Lasts, AttemptsIn;
    StartIsThere(g, y);
    var r := Run(g, y, before);
    Reachable(g, y, before);
    RunKeeps(g, FirstSpec(y), r, events);
    hide Run;
    if Lasts(g, r, events) {
      LastsNow(g, r, events);
      EpisodeCounts(g, FirstSpec(y), r, events);
      RetriesInRange(g, FirstSpec(y), r.w);
      RetriesInRange(g, FirstSpec(y), Run(g, r, events).w);
    }
  }

  lemma LastsNow(g: Setting, y: Sys, events: seq<Event>)
    requires Lasts(g, y, events)
    ensures InEpisode(y.w)
  {
  }

  /** An episode starts at 0: the only act of anyone else that makes a stored Kode Failed, or writes it Failed
      again, is the EntryPoint controller's, and it writes retry count 0. */
  lemma EpisodeStartsAtZero(g: Setting, y: Sys, events: seq<Event>, a: Act, now: nat)
    requires Start(g, y)
    ensures var w := Run(g, y, events).w;
            var v := Act1(g, w, a, now);
            v.kode.Some? && v.kode.value.status.phase == Failed && (w.kode.None? || w.kode.value.status != v.kode.value.status) ==>
              a.EpStep? && Retries(v) == 0
  {
    hide Run, Start, StatusOk, EpLookup, EpFailing, EpEnsured, EpPublishing, Remove, Terminate;
    EveryStatusIsOk(g, y, events);
  }
}

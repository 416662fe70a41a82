/** When deletion ends, and what it leaves: with no failing call, and nobody but the environment and the
    garbage collector acting, the finalizer comes off within seven rounds if and only if no required child
    is held; and a child survives exactly when nobody was deleting it and the operator does not. */
module DeletionEnds {
  import opened KodeTypes
  import opened Cluster
  import opened Handlers
  import opened DeletionSteps
  import D = Desired
  import R = Resources

  // ---- the delete list and the list required absent ----

  lemma RequiredIsListed(g: Setting, spec: KodeSpec, key: Key)
    ensures key in R.RequiredAbsent(g, spec) ==> key in R.CleanupKeys(g, spec)
    ensures !g.testMode || !key.ClaimKey? ==> (key in R.RequiredAbsent(g, spec) <==> key in R.CleanupKeys(g, spec))
  {
    var c := ClaimKey(D.ClaimName(g.name, spec));
    var keys, required := R.CleanupKeys(g, spec), R.RequiredAbsent(g, spec);
    assert keys[0] == SetKey && keys[1] == ServiceKey && keys[2] == SecretKey(D.SecretName(g.name, spec));
    assert required[0] == SetKey && required[2] == ServiceKey && required[1] == SecretKey(D.SecretName(g.name, spec));
    assert D.ManagesClaim(spec) ==> keys[3] == c && (!g.testMode ==> required[3] == c);
  }

  // ---- rounds: a reconcile, then a pause for the environment ----

  predicate Deleted(w: World) {
    w.kode.Some? && w.kode.value.deleting && w.kode.value.finalizer && w.kode.value.status.deletionCycle >= 0
  }

  /** The child exists and nobody is deleting it. */
  predicate Standing(c: Children, key: Key) { Exists(c, key) && key !in c.terminating }

  /** The child keeps the finalizer on: it is required absent and stands, and the operator will not delete
      it, because the one cleanup is over or because its volume is kept. */
  predicate Held(g: Setting, w: World, key: Key)
    requires Deleted(w)
  {
    var k := w.kode.value;
    && key in R.RequiredAbsent(g, k.spec)
    && Standing(w.children, key)
    && !(k.status.deletionCycle == 0 && R.ShouldDelete(k.spec, key))
  }

  /** A Kode being deleted that nothing holds. */
  ghost predicate Dying(g: Setting, w: World) { Deleted(w) && forall key :: !Held(g, w, key) }

  /** The rank: a generation to catch up with, a cleanup to do, children to wait for, a finalizer to take off. */
  function Rank(g: Setting, w: World): nat {
    if w.kode.None? then 0
    else
      var k := w.kode.value;
      1 + (if k.generation != k.status.observedGeneration then 1 else 0) + (if k.status.deletionCycle == 0 then 1 else 0)
      + Count(w.children, R.RequiredAbsent(g, k.spec))
  }

  lemma RankIsSmall(g: Setting, w: World)
    ensures Rank(g, w) <= 7
    ensures w.kode.Some? ==> Rank(g, w) >= 1
  {
    if w.kode.Some? {
      CountShrinks(w.children, w.children, R.RequiredAbsent(g, w.kode.value.spec));
    }
  }

  function Round(g: Setting, y: Sys): Sys { Enter(g, Reconcile(g, y).y) }

  function Rounds(g: Setting, y: Sys, n: nat): Sys
    decreases n
  {
    if n == 0 then y else Rounds(g, Round(g, y), n - 1)
  }

  /** In the pause the environment removes at least one required child that is terminating, if there is one. */
  ghost predicate Helpful(g: Setting, w: World, v: World) {
    w.kode.Some? ==>
      var keys := R.RequiredAbsent(g, w.kode.value.spec);
      (exists key :: key in keys && Exists(w.children, key) && key in w.children.terminating) ==>
        exists key :: key in keys && Exists(w.children, key) && !Exists(v.children, key)
  }

  ghost predicate EnvironmentHelps(g: Setting, y: Sys, n: nat)
    decreases n
  {
    n == 0 || (Helpful(g, Reconcile(g, y).y.w, Round(g, y).w) && EnvironmentHelps(g, Round(g, y), n - 1))
  }

  lemma FewerKeeps(w: World, v: World, touched: set<Key>, key: Key)
    requires Fewer(w, v, touched)
    ensures Exists(v.children, key) ==> Exists(w.children, key)
    ensures Exists(v.children, key) && key in w.children.terminating ==> key in v.children.terminating
    ensures Standing(w.children, key) && key !in touched ==> Standing(v.children, key)
  {
    assert Shrinks(w.(kode := None, released := None), v.(kode := None, released := None), touched);
    hide Exists;
  }

  lemma FewerCounts(w: World, v: World, touched: set<Key>, keys: seq<Key>)
    requires Fewer(w, v, touched)
    ensures Count(v.children, keys) <= Count(w.children, keys)
    ensures (exists key :: key in keys && Exists(w.children, key) && !Exists(v.children, key)) ==> Count(v.children, keys) < Count(w.children, keys)
  {
    assert Shrinks(w.(kode := None, released := None), v.(kode := None, released := None), touched);
    hide Exists;
    CountShrinks(w.children, v.children, keys);
  }

  /** What a reconcile leaves of a deleting Kode that it does not let go. */
  lemma StillDeleted(g: Setting, y: Sys)
    requires Unattended(g) && Deleted(y.w)
    ensures var k := y.w.kode.value;
            var v := Reconcile(g, y).y.w;
            v.kode.Some? ==>
              && Deleted(v) && v.kode.value.spec == k.spec && v.kode.value.generation == k.generation
              && v.kode.value.status.observedGeneration == k.generation
              && v.kode.value.status.deletionCycle == k.status.deletionCycle + (if k.generation == k.status.observedGeneration then 1 else 0)
              && Fewer(y.w, v, if k.generation == k.status.observedGeneration then Touched(g, k) else {})
  {
    ReconcileWorks(g, y);
    hide Reconcile, Unattended, Fewer, Touched, Seen, Exists;
  }

  /** A held child stays held: the Kode is never let go. */
  lemma HeldStays(g: Setting, y: Sys, key: Key)
    requires Unattended(g) && Deleted(y.w) && Held(g, y.w, key)
    ensures var v := Reconcile(g, y).y.w; Deleted(v) && Held(g, v, key)
  {
    var k := y.w.kode.value;
    var v := Reconcile(g, y).y.w;
    ReconcileWorks(g, y);
    StillDeleted(g, y);
    hide Reconcile, Unattended, Fewer, Seen, Exists, R.CleanupKeys, R.RequiredAbsent, R.ShouldDelete;
    if v.kode.None? {
      FewerKeeps(y.w, v, {}, key);
    } else {
      FewerKeeps(y.w, v, if k.generation == k.status.observedGeneration then Touched(g, k) else {}, key);
    }
  }

  lemma PauseKeeps(g: Setting, y: Sys)
    requires Unattended(g) && y.w.kode.Some?
    ensures Enter(g, y).w.kode == y.w.kode && Fewer(y.w, Enter(g, y).w, {}) && Shrinks(y.w, Enter(g, y).w, {})
  {
    EnterShrinks(g, y, {});
    ShrinksFewer(y.w, Enter(g, y).w, {});
    hide Enter, Unattended, Shrinks, Fewer;
  }

  lemma HeldThroughRound(g: Setting, y: Sys, key: Key)
    requires Unattended(g) && Deleted(y.w) && Held(g, y.w, key)
    ensures Deleted(Round(g, y).w) && Held(g, Round(g, y).w, key)
  {
    hide Reconcile, Unattended, Fewer, Exists, R.RequiredAbsent, R.ShouldDelete, Enter, Shrinks;
    HeldStays(g, y, key);
    var r := Reconcile(g, y).y;
    PauseKeeps(g, r);
    FewerKeeps(r.w, Enter(g, r).w, {}, key);
  }

  lemma {:induction false} HeldForGood(g: Setting, y: Sys, key: Key, n: nat)
    requires Unattended(g) && Deleted(y.w) && Held(g, y.w, key)
    ensures Rounds(g, y, n).w.kode.Some?
    decreases n
  {
    hide Unattended, Round, Held;
    if n > 0 {
      HeldThroughRound(g, y, key);
      HeldForGood(g, Round(g, y), key, n - 1);
    }
  }

  /** Nothing is held after a reconcile if nothing was before it, and after the one cleanup all that is
      required absent is on its way. */
  lemma NothingHeldAfter(g: Setting, y: Sys)
    requires Unattended(g) && Dying(g, y.w)
    ensures var v := Reconcile(g, y).y.w;
            v.kode.Some? ==>
              && Dying(g, v)
              && (v.kode.value.status.deletionCycle >= 1 ==>
                    forall key :: key in R.RequiredAbsent(g, v.kode.value.spec) && Exists(v.children, key) ==> key in v.children.terminating)
  {
    var k := y.w.kode.value;
    var v := Reconcile(g, y).y.w;
    ReconcileWorks(g, y);
    StillDeleted(g, y);
    hide Reconcile, Unattended, Fewer, Seen, Exists, R.CleanupKeys, R.RequiredAbsent, R.ShouldDelete;
    if v.kode.Some? {
      forall key | key in R.RequiredAbsent(g, k.spec) && Standing(v.children, key)
        ensures v.kode.value.status.deletionCycle == 0 && R.ShouldDelete(k.spec, key)
      {
        FewerKeeps(y.w, v, if k.generation == k.status.observedGeneration then Touched(g, k) else {}, key);
        assert !Held(g, y.w, key);
        RequiredIsListed(g, k.spec, key);
        assert k.generation == k.status.observedGeneration ==> key in Touched(g, k);
      }
    }
  }

  lemma NothingHeldLater(g: Setting, w: World, v: World)
    requires Dying(g, w) && v.kode == w.kode && Fewer(w, v, {})
    ensures Dying(g, v)
  {
    hide Fewer, Exists, R.RequiredAbsent, R.ShouldDelete;
    forall key ensures !Held(g, v, key) {
      FewerKeeps(w, v, {}, key);
      assert !Held(g, w, key);
    }
  }

  /** While waiting: everything required that is left is on its way, and something was there before. */
  lemma WaitingCounts(g: Setting, u: World, w: World, v: World, touched: set<Key>, keys: seq<Key>)
    requires w.kode.Some? && keys == R.RequiredAbsent(g, w.kode.value.spec)
    requires Fewer(u, w, touched) && Helpful(g, w, v) && Fewer(w, v, {})
    requires forall key :: key in keys && Exists(w.children, key) ==> key in w.children.terminating
    requires exists key :: key in keys && Exists(u.children, key)
    ensures Count(v.children, keys) < Count(u.children, keys)
  {
    hide Exists, R.RequiredAbsent, Fewer;
    FewerCounts(u, w, touched, keys);
    FewerCounts(w, v, {}, keys);
    CountShrinks(u.children, u.children, keys);
    CountShrinks(w.children, w.children, keys);
  }

  lemma RoundDecreases(g: Setting, y: Sys)
    requires Unattended(g) && Dying(g, y.w)
    ensures Helpful(g, Reconcile(g, y).y.w, Round(g, y).w) ==>
              Round(g, y).w.kode.None? || (Dying(g, Round(g, y).w) && Rank(g, Round(g, y).w) < Rank(g, y.w))
    ensures Round(g, y).w.kode.Some? ==> Dying(g, Round(g, y).w)
  {
    var k := y.w.kode.value;
    var keys := R.RequiredAbsent(g, k.spec);
    var r := Reconcile(g, y).y;
    var v := Enter(g, r).w;
    ReconcileWorks(g, y);
    StillDeleted(g, y);
    NothingHeldAfter(g, y);
    hide Enter, Reconcile, Exists, Unattended, R.RequiredAbsent, Shrinks, Fewer, Count, Touched, Helpful, Dying;
    if r.w.kode.Some? {
      PauseKeeps(g, r);
      NothingHeldLater(g, r.w, v);
      var touched := if k.generation == k.status.observedGeneration then Touched(g, k) else {};
      FewerCounts(y.w, r.w, touched, keys);
      FewerCounts(r.w, v, {}, keys);
      if k.generation == k.status.observedGeneration && k.status.deletionCycle >= 1 && Helpful(g, r.w, v) {
        WaitingCounts(g, y.w, r.w, v, touched, keys);
      }
    } else {
      GoneStays(g, r);
    }
  }

  lemma {:induction false} OthersGone(g: Setting, w: World, acts: seq<Act>, now: nat)
    requires w.kode.None?
    ensures Others(g, w, acts, now).kode.None?
    decreases |acts|
  {
    if acts != [] {
      assert Act1(g, w, acts[0], now).kode.None? by { hide EpLookup, EpFailing, EpEnsured, EpPublishing, Exists; }
      hide Act1;
      OthersGone(g, Act1(g, w, acts[0], now), acts[1..], now);
    }
  }

  lemma GoneStays(g: Setting, y: Sys)
    requires y.w.kode.None?
    ensures Enter(g, y).w.kode.None? && Reconcile(g, y).y.w.kode.None?
  {
    OthersGone(g, y.w, g.script(y.t).acts, y.t);
    hide Others;
  }

  lemma {:induction false} GoneForGood(g: Setting, y: Sys, n: nat)
    requires y.w.kode.None?
    ensures Rounds(g, y, n).w.kode.None?
    decreases n
  {
    hide Reconcile, Enter;
    if n > 0 {
      GoneStays(g, y);
      GoneStays(g, Reconcile(g, y).y);
      GoneForGood(g, Round(g, y), n - 1);
    }
  }

  lemma DyingIsThere(g: Setting, w: World)
    requires Dying(g, w)
    ensures w.kode.Some?
  {
    hide Held;
  }

  lemma RoundsStep(g: Setting, y: Sys, n: nat)
    requires n > 0
    ensures Rounds(g, y, n) == Rounds(g, Round(g, y), n - 1)
    ensures EnvironmentHelps(g, y, n) ==>
              Helpful(g, Reconcile(g, y).y.w, Round(g, y).w) && EnvironmentHelps(g, Round(g, y), n - 1)
  {
    hide Reconcile, Helpful, Round;
  }

  lemma {:induction false} RoundsEnd(g: Setting, y: Sys, n: nat)
    requires Unattended(g) && Dying(g, y.w) && n >= Rank(g, y.w)
    ensures EnvironmentHelps(g, y, n) ==> Rounds(g, y, n).w.kode.None?
    decreases n
  {
    hide *;
    DyingIsThere(g, y.w);
    RankIsSmall(g, y.w);
    RoundsStep(g, y, n);
    if EnvironmentHelps(g, y, n) {
      RoundDecreases(g, y);
      var v := Round(g, y);
      if v.w.kode.None? {
        GoneForGood(g, v, n - 1);
      } else {
        RoundsEnd(g, v, n - 1);
      }
    }
  }

  /** Deletion terminates: after as many rounds as the rank, at most seven, the Kode is gone, if in each
      pause the environment removes a terminating child. */
  lemma DeletionTerminates(g: Setting, y: Sys)
    requires Unattended(g) && Dying(g, y.w)
    ensures Rank(g, y.w) <= 7
    ensures EnvironmentHelps(g, y, Rank(g, y.w)) ==> Rounds(g, y, Rank(g, y.w)).w.kode.None?
  {
    hide Unattended, Dying, EnvironmentHelps, Rounds, Rank;
    RankIsSmall(g, y.w);
    RoundsEnd(g, y, Rank(g, y.w));
  }

  // ---- an environment that finishes every deletion before the next call ----

  ghost predicate SweepsAll(g: Setting, keys: seq<Key>) { forall key :: key in keys ==> Sweeps(g, key) }

  lemma SweepHelps(g: Setting, y: Sys, keys: seq<Key>)
    requires Unattended(g) && SweepsAll(g, keys) && (y.w.kode.Some? ==> R.RequiredAbsent(g, y.w.kode.value.spec) == keys)
    ensures Helpful(g, y.w, Enter(g, y).w)
  {
    hide R.RequiredAbsent, Exists, Environmental, Unattended, Sweeps, Enter;
    if y.w.kode.Some? {
      forall key | key in keys && key in y.w.children.terminating ensures !Exists(Enter(g, y).w.children, key) {
        EnterSweeps(g, y, key);
      }
    }
  }

  lemma {:induction false} SweepKeepsHelping(g: Setting, y: Sys, keys: seq<Key>, n: nat)
    requires Unattended(g) && SweepsAll(g, keys)
    requires y.w.kode.None? || (Deleted(y.w) && R.RequiredAbsent(g, y.w.kode.value.spec) == keys)
    ensures EnvironmentHelps(g, y, n)
    decreases n
  {
    hide Unattended, SweepsAll, Reconcile, Enter, Helpful, R.RequiredAbsent, Fewer, Touched;
    if n > 0 {
      var r := Reconcile(g, y).y;
      if y.w.kode.None? {
        GoneStays(g, y);
      } else {
        StillDeleted(g, y);
      }
      SweepHelps(g, r, keys);
      if r.w.kode.None? {
        GoneStays(g, r);
      } else {
        PauseKeeps(g, r);
      }
      SweepKeepsHelping(g, Round(g, y), keys, n - 1);
    }
  }

  /** The exact condition: with an environment that finishes every deletion before the next call, a deleting
      Kode is gone after seven rounds if and only if every required child that exists is being deleted
      already, or will be by a cleanup that is still to come and does not spare it; otherwise it stays for
      any number of rounds. */
  lemma DeletionEndsExactly(g: Setting, y: Sys)
    requires Unattended(g) && Deleted(y.w) && SweepsAll(g, R.RequiredAbsent(g, y.w.kode.value.spec))
    ensures var k := y.w.kode.value;
            Rounds(g, y, 7).w.kode.None? <==>
              forall key :: key in R.RequiredAbsent(g, k.spec) && Exists(y.w.children, key) ==>
                key in y.w.children.terminating || (k.status.deletionCycle == 0 && R.ShouldDelete(k.spec, key))
    ensures Rounds(g, y, 7).w.kode.Some? ==> forall n: nat :: Rounds(g, y, n).w.kode.Some?
  {
    hide Unattended, SweepsAll, Rounds, Rank, EnvironmentHelps, R.RequiredAbsent, R.ShouldDelete, Exists;
    if key :| Held(g, y.w, key) {
      forall n: nat ensures Rounds(g, y, n).w.kode.Some? {
        HeldForGood(g, y, key, n);
      }
    } else {
      SweepKeepsHelping(g, y, R.RequiredAbsent(g, y.w.kode.value.spec), 7);
      RankIsSmall(g, y.w);
      RoundsEnd(g, y, 7);
      var k := y.w.kode.value;
      forall key | key in R.RequiredAbsent(g, k.spec) && Exists(y.w.children, key)
        ensures key in y.w.children.terminating || (k.status.deletionCycle == 0 && R.ShouldDelete(k.spec, key))
      {
        assert !Held(g, y.w, key);
      }
    }
  }

  // ---- what survives ----

  /** The operator's cleanup is still to come, will be run, and does not spare this child. */
  ghost predicate Doomed(g: Setting, w: World, key: Key)
    requires w.kode.Some?
  {
    && key in Touched(g, w.kode.value)
    && exists other :: other in R.RequiredAbsent(g, w.kode.value.spec) && Standing(w.children, other)
  }

  ghost predicate Survives(g: Setting, w: World, key: Key)
    requires w.kode.Some?
  {
    Standing(w.children, key) && !Doomed(g, w, key)
  }

  /** The reconcile that lets the Kode go leaves exactly the children that survive. */
  lemma ReleaseSpares(g: Setting, y: Sys, key: Key)
    requires Unattended(g) && Deleted(y.w) && Sweeps(g, key)
    requires Reconcile(g, y).y.w.kode.None?
    ensures Exists(Reconcile(g, y).y.w.children, key) <==> Survives(g, y.w, key)
  {
    var r := Reconcile(g, y).y;
    ReconcileWorks(g, y);
    if !Standing(y.w.children, key) {
      EnterSweeps(g, y, key);
    }
    hide Reconcile, Enter, Unattended, Fewer, Sweeps, Exists, Touched, R.RequiredAbsent;
    FewerKeeps(y.w, r.w, {}, key);
    forall other | other in R.RequiredAbsent(g, y.w.kode.value.spec) ensures !Standing(y.w.children, other) {
      FewerKeeps(y.w, r.w, {}, other);
    }
  }

  /** Every other reconcile leaves the verdict on each child as it was. */
  lemma VerdictStays(g: Setting, y: Sys, key: Key)
    requires Unattended(g) && Deleted(y.w) && SweepsAll(g, R.RequiredAbsent(g, y.w.kode.value.spec))
    requires Reconcile(g, y).y.w.kode.Some?
    ensures Survives(g, Reconcile(g, y).y.w, key) <==> Survives(g, y.w, key)
  {
    hide Reconcile, Unattended, Fewer, Sweeps, Exists, R.RequiredAbsent, R.CleanupKeys, R.ShouldDelete;
    var k := y.w.kode.value;
    var r := Reconcile(g, y).y;
    var caughtUp := k.generation != k.status.observedGeneration;
    ReconcileWorks(g, y);
    StillDeleted(g, y);
    FewerKeeps(y.w, r.w, if caughtUp then {} else Touched(g, k), key);
    if caughtUp {
      SameVerdict(g, y.w, r.w, key);
    } else {
      assert exists other :: other in R.RequiredAbsent(g, k.spec) && Standing(y.w.children, other) by {
        var other :| other in R.RequiredAbsent(g, k.spec) && Exists(y.w.children, other)
                     && (other in y.w.children.terminating ==> !Sweeps(g, other));
        assert Standing(y.w.children, other);
      }
    }
  }

  lemma SameVerdict(g: Setting, w: World, v: World, key: Key)
    requires w.kode.Some? && v.kode.Some? && v.kode.value.spec == w.kode.value.spec
    requires v.kode.value.status.deletionCycle == w.kode.value.status.deletionCycle && Fewer(w, v, {})
    ensures Survives(g, v, key) <==> Survives(g, w, key)
  {
    hide Fewer, Exists, R.RequiredAbsent, R.CleanupKeys, R.ShouldDelete;
    forall k ensures Standing(v.children, k) <==> Standing(w.children, k) {
      FewerKeeps(w, v, {}, k);
    }
  }

  lemma {:induction false} RoundsSpare(g: Setting, y: Sys, n: nat, key: Key)
    requires Unattended(g) && Deleted(y.w) && Sweeps(g, key) && SweepsAll(g, R.RequiredAbsent(g, y.w.kode.value.spec))
    ensures var x := Rounds(g, y, n);
            x.w.kode.Some? ==> Deleted(x.w) && x.w.kode.value.spec == y.w.kode.value.spec && (Survives(g, x.w, key) <==> Survives(g, y.w, key))
    decreases n
  {
    hide Unattended, Sweeps, SweepsAll, Reconcile, Enter, Fewer, Touched, Survives, Shrinks;
    if n > 0 {
      var r := Reconcile(g, y).y;
      if r.w.kode.None? {
        GoneStays(g, r);
        GoneForGood(g, Round(g, y), n - 1);
      } else {
        StillDeleted(g, y);
        VerdictStays(g, y, key);
        PauseKeeps(g, r);
        SameVerdict(g, r.w, Round(g, y).w, key);
        RoundsSpare(g, Round(g, y), n - 1, key);
      }
    }
  }

  /** What survives, exactly: when a round lets the Kode go, a child is there at that moment if and only if it
      stood when the deletion was looked at first and no cleanup was to come that would delete it. */
  lemma SurvivesExactly(g: Setting, y: Sys, n: nat, key: Key)
    requires Unattended(g) && Deleted(y.w) && Sweeps(g, key) && SweepsAll(g, R.RequiredAbsent(g, y.w.kode.value.spec))
    ensures var x := Rounds(g, y, n);
            var r := Reconcile(g, x).y;
            x.w.kode.Some? && r.w.kode.None? ==> (Exists(r.w.children, key) <==> Survives(g, y.w, key))
  {
    hide Unattended, Sweeps, SweepsAll, Reconcile, Rounds, Exists, Survives;
    RoundsSpare(g, y, n, key);
    var x := Rounds(g, y, n);
    if x.w.kode.Some? && Reconcile(g, x).y.w.kode.None? {
      ReleaseSpares(g, x, key);
    }
  }

  /** Outside test mode, and in test mode for everything but claims: a child is left behind if and only if it
      exists, nobody is deleting it, and the spec does not require it to be absent. */
  lemma OrphansExactly(g: Setting, y: Sys, n: nat, key: Key)
    requires Unattended(g) && Deleted(y.w) && Sweeps(g, key) && SweepsAll(g, R.RequiredAbsent(g, y.w.kode.value.spec))
    requires !g.testMode || !key.ClaimKey?
    ensures var x := Rounds(g, y, n);
            var r := Reconcile(g, x).y;
            x.w.kode.Some? && r.w.kode.None? ==>
              (Exists(r.w.children, key) <==>
                 Exists(y.w.children, key) && key !in y.w.children.terminating && key !in R.RequiredAbsent(g, y.w.kode.value.spec))
  {
    hide Unattended, Sweeps, SweepsAll, Reconcile, Rounds, Exists, R.RequiredAbsent, R.ShouldDelete;
    SurvivesExactly(g, y, n, key);
    RoundsSpare(g, y, n, key);
    RequiredIsListed(g, y.w.kode.value.spec, key);
    var x := Rounds(g, y, n);
    if x.w.kode.Some? && Reconcile(g, x).y.w.kode.None? {
      ReleaseLacks(g, x);
    }
  }

  lemma ReleaseLacks(g: Setting, y: Sys)
    requires Unattended(g) && Deleted(y.w) && Reconcile(g, y).y.w.kode.None?
    ensures forall key :: key in R.RequiredAbsent(g, y.w.kode.value.spec) ==> !Exists(Reconcile(g, y).y.w.children, key)
  {
    ReconcileWorks(g, y);
    hide Reconcile, Unattended, Fewer, Exists, R.RequiredAbsent;
  }

  /** So the operator's own secret is left behind exactly when the spec by then names another one. */
  lemma SecretOrphanedExactly(g: Setting, y: Sys, n: nat)
    requires Unattended(g) && Deleted(y.w) && SweepsAll(g, R.RequiredAbsent(g, y.w.kode.value.spec))
    requires Sweeps(g, SecretKey(D.OwnSecretName(g.name)))
    requires Standing(y.w.children, SecretKey(D.OwnSecretName(g.name)))
    ensures var x := Rounds(g, y, n);
            var r := Reconcile(g, x).y;
            x.w.kode.Some? && r.w.kode.None? ==>
              (D.OwnSecretName(g.name) in r.w.children.secrets <==> D.SecretName(g.name, y.w.kode.value.spec) != D.OwnSecretName(g.name))
  {
    var spec := y.w.kode.value.spec;
    assert R.RequiredAbsent(g, spec)[1] == SecretKey(D.SecretName(g.name, spec));
    assert SecretKey(D.OwnSecretName(g.name)) in R.RequiredAbsent(g, spec) <==> D.SecretName(g.name, spec) == D.OwnSecretName(g.name);
    hide Unattended, Sweeps, SweepsAll, Reconcile, Rounds, R.RequiredAbsent;
    OrphansExactly(g, y, n, SecretKey(D.OwnSecretName(g.name)));
  }

  /** And, outside test mode, its own claim exactly when the spec no longer manages one. */
  lemma ClaimOrphanedExactly(g: Setting, y: Sys, n: nat)
    requires Unattended(g) && Deleted(y.w) && SweepsAll(g, R.RequiredAbsent(g, y.w.kode.value.spec)) && !g.testMode
    requires Sweeps(g, ClaimKey(D.OwnClaimName(g.name)))
    requires Standing(y.w.children, ClaimKey(D.OwnClaimName(g.name)))
    ensures var x := Rounds(g, y, n);
            var r := Reconcile(g, x).y;
            x.w.kode.Some? && r.w.kode.None? ==>
              (D.OwnClaimName(g.name) in r.w.children.claims <==> !D.ManagesClaim(y.w.kode.value.spec))
  {
    var spec := y.w.kode.value.spec;
    assert D.ManagesClaim(spec) ==> R.RequiredAbsent(g, spec)[3] == ClaimKey(D.OwnClaimName(g.name));
    hide Unattended, Sweeps, SweepsAll, Reconcile, Rounds;
    OrphansExactly(g, y, n, ClaimKey(D.OwnClaimName(g.name)));
  }

  /** What is left behind is left to the garbage collector: it touches nothing while the Kode is there, and
      once it is gone takes whatever an ensure step has given the owner reference. */
  lemma CollectorTakesOrphans(g: Setting, w: World, key: Key, now: nat)
    ensures var v := Others(g, w, [Collect(key), Vanish(key)], now);
            && (w.kode.Some? && Standing(w.children, key) ==> Standing(v.children, key))
            && (w.kode.None? && key in w.owned ==> !Exists(v.children, key))
            && (w.kode.None? && key !in w.owned && Standing(w.children, key) ==> Standing(v.children, key))
  {
    var v := Act1(g, w, Collect(key), now);
    assert [Collect(key), Vanish(key)][1..] == [Vanish(key)];
    assert Others(g, v, [Vanish(key)], now) == Act1(g, v, Vanish(key), now);
  }
}

/** The deletion protocol: a reconcile of a deleting Kode creates nothing; when deletion ends, and the
    states from which it never does. */
module Deletion {
  import opened KodeTypes
  import opened Cluster
  import opened Handlers
  import D = Desired
  import R = Resources

  // ---- any script: nothing is created, and a held child stays ----

  ghost predicate NothingNew(w: World, v: World) {
    && v.owned == w.owned && (forall key :: !Exists(w.children, key) ==> !Exists(v.children, key))
    && (v.kode.Some? ==> w.kode.Some? && (w.kode.value.deleting ==> v.kode.value.deleting))
  }

  /** `key` keeps the finalizer on: it exists, nobody has asked for its deletion, the operator requires it
      to be absent, and will not delete it, either because the volume is kept or because the one cleanup
      is over and no copy of the EntryPoint controller can turn the cycle back. */
  ghost predicate Stuck(g: Setting, key: Key, kept: bool, w: World) {
    && w.kode.Some?
    && StuckCopy(g, key, kept, w.kode.value)
    && Exists(w.children, key) && key !in w.children.terminating
    && (!kept ==> w.kode.value.status.phase == Deleting && w.ep.None?)
  }

  predicate StuckCopy(g: Setting, key: Key, kept: bool, k: Kode) {
    && k.deleting && k.finalizer
    && StuckSpec(g, key, kept, k.spec)
    && (!kept ==> k.status.deletionCycle >= 1)
  }

  predicate StuckSpec(g: Setting, key: Key, kept: bool, spec: KodeSpec) {
    key in R.RequiredAbsent(g, spec) && (kept ==> !R.ShouldDelete(spec, key))
  }

  /** What the user's edits must not change for the child to stay held. */
  ghost predicate EditsKeep(g: Setting, key: Key, kept: bool) {
    forall n: nat, i :: 0 <= i < |g.script(n).acts| && g.script(n).acts[i].Edit? ==> StuckSpec(g, key, kept, g.script(n).acts[i].spec)
  }

  /** Both at once for a step from `w` to `v`; `good` says that the copy at work is one of a held child. */
  ghost predicate Carried(g: Setting, key: Key, kept: bool, good: bool, w: World, v: World) {
    && NothingNew(w, v)
    && (good && EditsKeep(g, key, kept) && Stuck(g, key, kept, w) ==> Stuck(g, key, kept, v))
  }

  lemma Transitive(g: Setting, key: Key, kept: bool, good: bool, u: World, v: World, w: World)
    requires Carried(g, key, kept, good, u, v) && Carried(g, key, kept, good, v, w)
    ensures Carried(g, key, kept, good, u, w)
  {
    hide Stuck, Exists, EditsKeep;
  }

  lemma ActCarries(g: Setting, key: Key, kept: bool, w: World, a: Act, now: nat)
    ensures NothingNew(w, Act1(g, w, a, now))
    ensures Stuck(g, key, kept, w) && (a.Edit? ==> StuckSpec(g, key, kept, a.spec)) ==> Stuck(g, key, kept, Act1(g, w, a, now))
  {
    hide EpLookup, EpFailing, EpEnsured, EpPublishing, StuckSpec;
  }

  lemma {:induction false} OthersCarry(g: Setting, key: Key, kept: bool, w: World, acts: seq<Act>, now: nat)
    ensures NothingNew(w, Others(g, w, acts, now))
    ensures Stuck(g, key, kept, w) && (forall i :: 0 <= i < |acts| && acts[i].Edit? ==> StuckSpec(g, key, kept, acts[i].spec)) ==>
              Stuck(g, key, kept, Others(g, w, acts, now))
    decreases |acts|
  {
    hide Act1, Stuck, StuckSpec, Exists;
    if acts != [] {
      ActCarries(g, key, kept, w, acts[0], now);
      OthersCarry(g, key, kept, Act1(g, w, acts[0], now), acts[1..], now);
    }
  }

  lemma EnterCarries(g: Setting, key: Key, kept: bool, good: bool, y: Sys)
    ensures Carried(g, key, kept, good, y.w, Enter(g, y).w)
  {
    OthersCarry(g, key, kept, y.w, g.script(y.t).acts, y.t);
    hide Others, Stuck, StuckSpec, NothingNew;
  }

  lemma SaveCarries(g: Setting, key: Key, kept: bool, good: bool, y: Sys, s: Status)
    requires good ==> s.phase == Deleting && (!kept ==> s.deletionCycle >= 1)
    ensures Carried(g, key, kept, good, y.w, UpdateStatus(g, y, s).y.w)
  {
    EnterCarries(g, key, kept, good, y);
    hide Enter, StuckSpec, Exists, EditsKeep;
  }

  lemma {:induction false} AbsentCarries(g: Setting, key: Key, kept: bool, good: bool, y: Sys, keys: seq<Key>)
    ensures Carried(g, key, kept, good, y.w, R.CheckAbsent(g, y, keys).y.w)
    ensures good && EditsKeep(g, key, kept) && Stuck(g, key, kept, y.w) && key in keys ==> R.CheckAbsent(g, y, keys).out != Ok(true)
    decreases |keys|
  {
    hide Enter, StuckCopy, Exists, EditsKeep;
    if keys != [] {
      EnterCarries(g, key, kept, good, y);
      AbsentCarries(g, key, kept, good, Enter(g, y), keys[1..]);
    }
  }

  lemma TerminateCarries(g: Setting, key: Key, kept: bool, good: bool, y: Sys, other: Key)
    requires good ==> other != key
    ensures Carried(g, key, kept, good, y.w, PutChildren(y, Terminate(y.w.children, other), {}).w)
  {
    hide StuckCopy, EditsKeep;
  }

  /** Cleanup skips a volume that is kept. */
  lemma {:induction false} DeleteKeysCarries(g: Setting, key: Key, kept: bool, good: bool, y: Sys, spec: KodeSpec,
                                             keys: seq<Key>, initiated: bool)
    requires good ==> !R.ShouldDelete(spec, key)
    ensures Carried(g, key, kept, good, y.w, R.DeleteKeys(g, y, spec, keys, initiated).y.w)
    decreases |keys|
  {
    hide Enter, Terminate, PutChildren, R.ShouldDelete, Stuck, Exists, EditsKeep;
    if keys != [] {
      if R.ShouldDelete(spec, keys[0]) {
        EnterCarries(g, key, kept, good, y);
        var z := Enter(g, y);
        TerminateCarries(g, key, kept, good, z, keys[0]);
        DeleteKeysCarries(g, key, kept, good, PutChildren(z, Terminate(z.w.children, keys[0]), {}), spec, keys[1..], true);
      } else {
        DeleteKeysCarries(g, key, kept, good, y, spec, keys[1..], initiated);
      }
    }
  }

  lemma ErrorCarries(g: Setting, key: Key, kept: bool, good: bool, y: Sys, k: Kode, e: Err)
    requires good ==> k.status.phase == Deleting && (!kept ==> k.status.deletionCycle >= 1)
    ensures Carried(g, key, kept, good, y.w, HandleReconcileError(g, y, k, e).y.w)
  {
    hide UpdateStatus, Mark3, Exists, Stuck, EditsKeep;
    Mark3Only(k, False, ReconciliationFailed, False, ReconciliationFailed, False, ReconciliationFailed, y.t);
    SaveCarries(g, key, kept, good, y, Failing(k, e, y.t).status);
  }

  predicate GoodCopy(g: Setting, key: Key, kept: bool, k: Kode) {
    k.status.phase == Deleting && StuckCopy(g, key, kept, k)
  }

  lemma AwaitCarries(g: Setting, key: Key, kept: bool, good: bool, y: Sys, k: Kode)
    requires good ==> GoodCopy(g, key, kept, k)
    ensures Carried(g, key, kept, good, y.w, AwaitChildren(g, y, k).y.w)
  {
    var m := k.(status := k.status.(deletionCycle := k.status.deletionCycle + 1));
    hide UpdateStatus, HandleReconcileError, R.DeleteKeys, R.CleanupKeys, R.RequiredAbsent, R.ShouldDelete, Carried;
    if k.status.deletionCycle == 0 {
      var c := R.Cleanup(g, y, m.spec);
      DeleteKeysCarries(g, key, kept, good, y, m.spec, R.CleanupKeys(g, m.spec), false);
      if c.out.Bad? {
        ErrorCarries(g, key, kept, good, c.y, m, c.out.err);
        Transitive(g, key, kept, good, y.w, c.y.w, HandleReconcileError(g, c.y, m, c.out.err).y.w);
      } else {
        SaveCarries(g, key, kept, good, c.y, m.status);
        Transitive(g, key, kept, good, y.w, c.y.w, UpdateStatus(g, c.y, m.status).y.w);
      }
    } else {
      SaveCarries(g, key, kept, good, y, m.status);
    }
  }

  lemma ReleaseMakesNothing(g: Setting, y: Sys, spec: KodeSpec)
    ensures NothingNew(y.w, RemoveFinalizer(g, y, spec).y.w)
  {
    EnterCarries(g, SetKey, true, false, y);
    hide Enter, Exists;
  }

  lemma DeletingCarries(g: Setting, key: Key, kept: bool, good: bool, y: Sys, k: Kode)
    requires good ==> GoodCopy(g, key, kept, k) && EditsKeep(g, key, kept) && Stuck(g, key, kept, y.w)
    ensures Carried(g, key, kept, good, y.w, HandleDeleting(g, y, k).y.w)
  {
    var m := Mark3(k, False, DeletingResource, False, DeletingResource, True, DeletingResource, y.t);
    Mark3Only(k, False, DeletingResource, False, DeletingResource, True, DeletingResource, y.t);
    hide Mark3, UpdateStatus, HandleReconcileError, R.CheckAbsent, R.RequiredAbsent, R.ShouldDelete, AwaitChildren,
      RemoveFinalizer, Exists;
    SaveCarries(g, key, kept, good, y, m.status);
    var u := UpdateStatus(g, y, m.status);
    if u.err.None? {
      var c := R.CheckResourcesDeleted(g, u.y, m.spec);
      AbsentCarries(g, key, kept, good, u.y, R.RequiredAbsent(g, m.spec));
      assert good ==> c.out != Ok(true);
      hide Stuck, StuckSpec, EditsKeep;
      if c.out.Bad? {
        ErrorCarries(g, key, kept, good, c.y, m, c.out.err);
      } else if !c.out.value {
        AwaitCarries(g, key, kept, good, c.y, m);
      } else {
        ReleaseMakesNothing(g, c.y, m.spec);
        var r := RemoveFinalizer(g, c.y, m.spec);
        if r.err.Some? {
          ErrorCarries(g, key, kept, false, r.y, m, r.err.value);
        }
      }
    }
  }

  lemma DeletingPhase(g: Setting, y: Sys, k: Kode)
    ensures HandleDeleting(g, y, k).err.None? ==> HandleDeleting(g, y, k).phase == Deleting
  {
    hide Mark3, UpdateStatus, R.CheckAbsent, RemoveFinalizer, R.DeleteKeys;
  }

  lemma MachineCarries(g: Setting, key: Key, kept: bool, good: bool, y: Sys, k: Kode)
    requires k.status.phase == Deleting
    requires good ==> GoodCopy(g, key, kept, k) && EditsKeep(g, key, kept) && Stuck(g, key, kept, y.w)
    ensures Carried(g, key, kept, good, y.w, RunMachine(g, y, k).y.w)
  {
    var m := k.(status := k.status.(retryCount := 0));
    hide UpdateStatus, Stuck, EditsKeep, HandleDeleting, StuckSpec, Exists;
    if k.status.retryCount > 0 {
      SaveCarries(g, key, kept, good, y, m.status);
      var u := UpdateStatus(g, y, m.status);
      DeletingPhase(g, u.y, m);
      if u.err.None? {
        DeletingCarries(g, key, kept, good, u.y, m);
      }
    } else {
      DeletingPhase(g, y, k);
      DeletingCarries(g, key, kept, good, y, k);
    }
  }

  lemma GateCarries(g: Setting, key: Key, kept: bool, good: bool, y: Sys, k: Kode)
    requires k.status.phase == Deleting && k.finalizer
    requires good ==> GoodCopy(g, key, kept, k) && EditsKeep(g, key, kept) && Stuck(g, key, kept, y.w)
    ensures Carried(g, key, kept, good, y.w, AfterDeletionGate(g, y, k).y.w)
  {
    var n := k.status.(observedGeneration := k.generation);
    hide UpdateStatus, Stuck, EditsKeep, RunMachine, StuckSpec, Carried;
    if k.generation != k.status.observedGeneration {
      SaveCarries(g, key, kept, good, y, n);
    } else {
      MachineCarries(g, key, kept, good, y, k);
    }
  }

  lemma ReconcileCarries(g: Setting, key: Key, kept: bool, good: bool, y: Sys)
    requires Enter(g, y).w.kode.Some? && Enter(g, y).w.kode.value.deleting
    requires good ==> EditsKeep(g, key, kept) && Stuck(g, key, kept, y.w)
    ensures Carried(g, key, kept, good, y.w, Reconcile(g, y).y.w)
  {
    EnterCarries(g, key, kept, good, y);
    var z := Enter(g, y);
    var k := z.w.kode.value;
    var m := WithPhase(k, Deleting);
    assert good ==> GoodCopy(g, key, kept, m) by { hide Enter, EditsKeep, StuckSpec, Exists; }
    hide Enter, UpdateStatus, Stuck, EditsKeep, AfterDeletionGate, GoodCopy, Exists;
    if k.finalizer && Up(g, y) {
      SaveCarries(g, key, kept, good, z, m.status) by { assert good ==> GoodCopy(g, key, kept, m); GoodStatus(g, key, kept, m); }
      var u := UpdateStatus(g, z, m.status);
      if u.err.None? {
        GateCarries(g, key, kept, good, u.y, m);
      }
    }
  }

  lemma GoodStatus(g: Setting, key: Key, kept: bool, k: Kode)
    ensures GoodCopy(g, key, kept, k) ==> k.status.phase == Deleting && (!kept ==> k.status.deletionCycle >= 1)
  {
    hide StuckSpec;
  }

  /** A reconcile that reads a deletion timestamp makes no child, whatever phase it reads, whatever the
      others do and whichever calls fail: no ensure step runs. */
  lemma DeletingCreatesNothing(g: Setting, y: Sys)
    requires Enter(g, y).w.kode.Some? && Enter(g, y).w.kode.value.deleting
    ensures Reconcile(g, y).y.w.owned == y.w.owned
    ensures forall key :: !Exists(y.w.children, key) ==> !Exists(Reconcile(g, y).y.w.children, key)
  {
    ReconcileCarries(g, SetKey, true, false, y);
    hide Reconcile, Enter, Stuck, Exists;
  }

  /** And the deletion timestamp stays. */
  lemma DeletingStays(g: Setting, y: Sys)
    requires Enter(g, y).w.kode.Some? && Enter(g, y).w.kode.value.deleting
    ensures var v := Reconcile(g, y).y.w; v.kode.Some? ==> v.kode.value.deleting
  {
    var z := Enter(g, y);
    var k := z.w.kode.value;
    var m := WithPhase(k, Deleting);
    hide Enter, UpdateStatus, AfterDeletionGate, Exists, Stuck;
    if k.finalizer && Up(g, y) {
      SaveCarries(g, SetKey, true, false, z, m.status);
      var u := UpdateStatus(g, z, m.status);
      if u.err.None? {
        GateCarries(g, SetKey, true, false, u.y, m);
      }
    }
  }

  lemma {:induction false} StuckForever(g: Setting, key: Key, kept: bool, y: Sys, events: seq<Event>)
    requires Stuck(g, key, kept, y.w) && EditsKeep(g, key, kept)
    ensures Stuck(g, key, kept, Run(g, y, events).w)
    decreases |events|
  {
    if events != [] {
      var v := Step(g, y, events[0]);
      EnterCarries(g, key, kept, true, y);
      assert Stuck(g, key, kept, Enter(g, y).w) && Enter(g, y).w.kode.Some? && Enter(g, y).w.kode.value.deleting by {
        hide Enter, EditsKeep, StuckSpec;
      }
      ReconcileCarries(g, key, kept, true, y);
      hide Reconcile, Enter, Stuck, EditsKeep, NothingNew;
      StuckForever(g, key, kept, v, events[1..]);
    }
  }

  /** The KeepVolume trap: outside test mode, while every spec manages a claim and keeps it, a deleting
      Kode whose claim exists never gets rid of its finalizer, in any run. */
  lemma KeptVolumeBlocks(g: Setting, y: Sys, events: seq<Event>)
    requires y.w.kode.Some? && y.w.kode.value.deleting && y.w.kode.value.finalizer && !g.testMode
    requires D.ManagesClaim(y.w.kode.value.spec) && y.w.kode.value.spec.storage.value.keepVolume == Some(true)
    requires ClaimKey(D.OwnClaimName(g.name)) !in y.w.children.terminating && D.OwnClaimName(g.name) in y.w.children.claims
    requires forall n: nat, i :: 0 <= i < |g.script(n).acts| && g.script(n).acts[i].Edit? ==>
               D.ManagesClaim(g.script(n).acts[i].spec) && g.script(n).acts[i].spec.storage.value.keepVolume == Some(true)
    ensures var w := Run(g, y, events).w;
            && w.kode.Some? && w.kode.value.deleting && w.kode.value.finalizer
            && D.OwnClaimName(g.name) in w.children.claims && ClaimKey(D.OwnClaimName(g.name)) !in w.children.terminating
  {
    var key := ClaimKey(D.OwnClaimName(g.name));
    KeptSpec(g, y.w.kode.value.spec);
    forall n: nat, i | 0 <= i < |g.script(n).acts| && g.script(n).acts[i].Edit?
      ensures StuckSpec(g, key, true, g.script(n).acts[i].spec)
    {
      KeptSpec(g, g.script(n).acts[i].spec);
    }
    hide StuckSpec, Run;
    StuckForever(g, key, true, y, events);
  }

  lemma KeptSpec(g: Setting, spec: KodeSpec)
    requires !g.testMode && D.ManagesClaim(spec) && spec.storage.value.keepVolume == Some(true)
    ensures StuckSpec(g, ClaimKey(D.OwnClaimName(g.name)), true, spec)
  {
    assert R.RequiredAbsent(g, spec)[3] == ClaimKey(D.OwnClaimName(g.name));
  }

  /** The one-cleanup trap: once the deletion cycle has left 0 while a child required absent is there, nobody is
      deleting it, and no copy of the EntryPoint controller is in flight, no run ever takes the finalizer off,
      unless an edit stops requiring that child. StaleWrites says what a copy in flight changes. */
  lemma MissedCleanupBlocks(g: Setting, y: Sys, key: Key, events: seq<Event>)
    requires y.w.kode.Some? && y.w.kode.value.deleting && y.w.kode.value.finalizer && y.w.ep.None?
    requires y.w.kode.value.status.phase == Deleting && y.w.kode.value.status.deletionCycle >= 1
    requires Exists(y.w.children, key) && key !in y.w.children.terminating && key in R.RequiredAbsent(g, y.w.kode.value.spec)
    requires EditsKeep(g, key, false)
    ensures var w := Run(g, y, events).w;
            w.kode.Some? && w.kode.value.deleting && w.kode.value.finalizer && Exists(w.children, key)
  {
    hide EditsKeep, Run, Exists, R.RequiredAbsent;
    StuckForever(g, key, false, y, events);
  }

  /** For the stateful set and the service no edit can. */
  lemma AlwaysRequired(g: Setting, spec: KodeSpec)
    ensures StuckSpec(g, SetKey, false, spec) && StuckSpec(g, ServiceKey, false, spec)
  {
    assert R.RequiredAbsent(g, spec)[0] == SetKey && R.RequiredAbsent(g, spec)[2] == ServiceKey;
  }

  // ---- how a run gets there ----

  /** Nobody else acts before these calls. */
  ghost predicate Still(g: Setting, from: nat, to: nat) { forall n: nat :: from <= n <= to ==> g.script(n).acts == [] }

  /** All of these calls get through. */
  ghost predicate AllUp(g: Setting, from: nat, to: nat) { forall n: nat :: from <= n < to ==> g.script(n).ok }

  lemma EnterStill(g: Setting, y: Sys)
    requires g.script(y.t).acts == []
    ensures Enter(g, y) == y.(t := y.t + 1)
  {
  }

  function WithStatus(w: World, s: Status): World
    requires w.kode.Some?
  {
    w.(kode := Some(w.kode.value.(status := s)))
  }

  lemma SaveStill(g: Setting, y: Sys, s: Status)
    requires g.script(y.t).acts == [] && g.script(y.t).ok && y.w.kode.Some?
    ensures UpdateStatus(g, y, s) == Ack(Sys(WithStatus(y.w, s), y.t + 1, y.log + [s]), None)
  {
    EnterStill(g, y);
    hide Enter;
  }

  predicate Distinct(keys: seq<Key>) { forall a, b :: 0 <= a < b < |keys| ==> keys[a] != keys[b] }

  /** A cleanup whose delete number j fails stops there; that child has not been deleted. */
  lemma {:induction false} DeleteFails(g: Setting, y: Sys, spec: KodeSpec, keys: seq<Key>, initiated: bool, j: nat)
    requires j < |keys| && Distinct(keys) && forall i :: 0 <= i <= j ==> R.ShouldDelete(spec, keys[i])
    requires Still(g, y.t, y.t + j) && AllUp(g, y.t, y.t + j) && !g.script(y.t + j).ok
    ensures var r := R.DeleteKeys(g, y, spec, keys, initiated);
            && r.out == Bad(Refused) && r.y.t == y.t + j + 1
            && r.y.w == y.w.(children := r.y.w.children)
            && Exists(r.y.w.children, keys[j]) == Exists(y.w.children, keys[j])
            && (keys[j] !in y.w.children.terminating ==> keys[j] !in r.y.w.children.terminating)
    decreases j
  {
    hide R.ShouldDelete, Enter;
    EnterStill(g, y);
    if j > 0 {
      var p := PutChildren(y.(t := y.t + 1), Terminate(y.w.children, keys[0]), {});
      assert p.w.owned == y.w.owned;
      DeleteFails(g, p, spec, keys[1..], true, j - 1);
    }
  }

  lemma CleanupListed(g: Setting, spec: KodeSpec, j: nat)
    requires j < |R.CleanupKeys(g, spec)| && R.ShouldDelete(spec, R.CleanupKeys(g, spec)[j])
    ensures Distinct(R.CleanupKeys(g, spec))
    ensures forall i :: 0 <= i <= j ==> R.ShouldDelete(spec, R.CleanupKeys(g, spec)[i])
  {
  }

  /** The first deletion cycle when delete number j of its cleanup fails: the cycle is stored all the same. */
  lemma FailedCleanupStoresCycle(g: Setting, y: Sys, k: Kode, j: nat)
    requires y.w.kode.Some? && k.status.deletionCycle == 0
    requires j < |R.CleanupKeys(g, k.spec)| && R.ShouldDelete(k.spec, R.CleanupKeys(g, k.spec)[j])
    requires Still(g, y.t, y.t + j + 1) && AllUp(g, y.t, y.t + j) && !g.script(y.t + j).ok && g.script(y.t + j + 1).ok
    ensures var o := AwaitChildren(g, y, k);
            var key := R.CleanupKeys(g, k.spec)[j];
            && o.err == Some(Refused)
            && o.y.w == y.w.(kode := o.y.w.kode, children := o.y.w.children)
            && o.y.w.kode.Some? && o.y.w.kode.value == y.w.kode.value.(status := o.y.w.kode.value.status)
            && o.y.w.kode.value.status.deletionCycle == 1 && o.y.w.kode.value.status.phase == k.status.phase
            && Exists(o.y.w.children, key) == Exists(y.w.children, key)
            && (key !in y.w.children.terminating ==> key !in o.y.w.children.terminating)
  {
    CleanupListed(g, k.spec, j);
    DeleteFails(g, y, k.spec, R.CleanupKeys(g, k.spec), false, j);
    hide R.DeleteKeys, R.CleanupKeys, UpdateStatus, Mark3, Exists;
    var m := k.(status := k.status.(deletionCycle := 1));
    var c := R.Cleanup(g, y, m.spec);
    Mark3Only(m, False, ReconciliationFailed, False, ReconciliationFailed, False, ReconciliationFailed, c.y.t);
    SaveStill(g, c.y, Failing(m, Refused, c.y.t).status);
  }

  lemma FailedCleanupHandles(g: Setting, y: Sys, j: nat)
    requires y.w.kode.Some? && y.w.kode.value.status.deletionCycle == 0 && y.w.children.stateful.Some?
    requires y.w.kode.value.status.phase == Deleting
    requires var k := y.w.kode.value; j < |R.CleanupKeys(g, k.spec)| && R.ShouldDelete(k.spec, R.CleanupKeys(g, k.spec)[j])
    requires Still(g, y.t, y.t + j + 3) && AllUp(g, y.t, y.t + j + 2) && !g.script(y.t + j + 2).ok && g.script(y.t + j + 3).ok
    ensures var k := y.w.kode.value;
            var o := HandleDeleting(g, y, k);
            var key := R.CleanupKeys(g, k.spec)[j];
            && o.err == Some(Refused)
            && o.y.w == y.w.(kode := o.y.w.kode, children := o.y.w.children)
            && o.y.w.kode.Some? && o.y.w.kode.value == k.(status := o.y.w.kode.value.status)
            && o.y.w.kode.value.status.deletionCycle == 1 && o.y.w.kode.value.status.phase == Deleting
            && Exists(o.y.w.children, key) == Exists(y.w.children, key)
            && (key !in y.w.children.terminating ==> key !in o.y.w.children.terminating)
  {
    var k := y.w.kode.value;
    var m := Mark3(k, False, DeletingResource, False, DeletingResource, True, DeletingResource, y.t);
    Mark3Only(k, False, DeletingResource, False, DeletingResource, True, DeletingResource, y.t);
    SaveStill(g, y, m.status);
    var u := UpdateStatus(g, y, m.status);
    EnterStill(g, u.y);
    assert R.RequiredAbsent(g, m.spec)[0] == SetKey;
    assert R.CheckResourcesDeleted(g, u.y, m.spec) == R.Ret(u.y.(t := u.y.t + 1), Ok(false)) by {
      hide Mark3, UpdateStatus, Enter;
    }
    hide Mark3, UpdateStatus, R.CheckAbsent, R.CleanupKeys, AwaitChildren, Exists, Enter;
    FailedCleanupStoresCycle(g, u.y.(t := u.y.t + 1), m, j);
  }

  /** A whole run into the trap: with no copy of the EntryPoint controller in flight, and nobody acting meanwhile,
      a reconcile starts the deletion of a Kode whose stateful set is there, and delete number j of its cleanup
      fails. If that child stands, no later run ever takes the finalizer off, whatever the others do from then
      on, as long as no edit stops requiring the child to be absent. */
  lemma FailedCleanupBlocks(g: Setting, y: Sys, j: nat, events: seq<Event>)
    requires y.w.kode.Some? && y.w.kode.value.deleting && y.w.kode.value.finalizer && y.w.ep.None?
    requires y.w.kode.value.generation == y.w.kode.value.status.observedGeneration
    requires y.w.kode.value.status.deletionCycle == 0 && y.w.kode.value.status.retryCount == 0 && y.w.children.stateful.Some?
    requires var k := y.w.kode.value; j < |R.CleanupKeys(g, k.spec)| && R.ShouldDelete(k.spec, R.CleanupKeys(g, k.spec)[j])
    requires var key := R.CleanupKeys(g, y.w.kode.value.spec)[j];
             Exists(y.w.children, key) && key !in y.w.children.terminating && key in R.RequiredAbsent(g, y.w.kode.value.spec)
             && EditsKeep(g, key, false)
    requires Still(g, y.t, y.t + j + 5) && AllUp(g, y.t, y.t + j + 4) && !g.script(y.t + j + 4).ok && g.script(y.t + j + 5).ok
    ensures var d := Reconcile(g, y);
            var w := Run(g, d.y, events).w;
            && d.err == Some(Refused)
            && w.kode.Some? && w.kode.value.deleting && w.kode.value.finalizer
            && Exists(w.children, R.CleanupKeys(g, y.w.kode.value.spec)[j])
  {
    var k := y.w.kode.value;
    var key := R.CleanupKeys(g, k.spec)[j];
    var m := WithPhase(k, Deleting);
    EnterStill(g, y);
    var z := Enter(g, y);
    SaveStill(g, z, m.status);
    var u := UpdateStatus(g, z, m.status);
    FailedCleanupHandles(g, u.y, j);
    var o := HandleDeleting(g, u.y, m);
    DeletingReconciles(g, y);
    hide Reconcile, HandleDeleting, UpdateStatus, Enter, Run, EditsKeep, Exists, R.RequiredAbsent, R.CleanupKeys;
    MissedCleanupBlocks(g, Reconcile(g, y).y, key, events);
  }

  /** Past the gates, a reconcile of a deleting Kode is its handler. */
  lemma DeletingReconciles(g: Setting, y: Sys)
    requires var k := Enter(g, y).w.kode;
             k.Some? && k.value.deleting && k.value.finalizer && k.value.generation == k.value.status.observedGeneration
             && k.value.status.retryCount == 0
    requires Up(g, y) && Up(g, Enter(g, y))
    ensures var m := WithPhase(Enter(g, y).w.kode.value, Deleting);
            var u := UpdateStatus(g, Enter(g, y), m.status);
            var o := HandleDeleting(g, u.y, m);
            Reconcile(g, y).y == o.y && Reconcile(g, y).err == o.err
  {
    var m := WithPhase(Enter(g, y).w.kode.value, Deleting);
    var u := UpdateStatus(g, Enter(g, y), m.status);
    DeletingPhase(g, u.y, m);
    hide HandleDeleting, Enter;
  }

  // ---- what a cleanup deletes ----

  /** A child that is gone or being deleted. */
  predicate Going(c: Children, key: Key) { Exists(c, key) ==> key in c.terminating }

  lemma {:induction false} OthersKeepGoing(g: Setting, w: World, acts: seq<Act>, now: nat, key: Key)
    requires Going(w.children, key)
    ensures Going(Others(g, w, acts, now).children, key)
    decreases |acts|
  {
    if acts != [] {
      assert Going(Act1(g, w, acts[0], now).children, key) by { hide EpLookup, EpFailing, EpEnsured, EpPublishing; }
      hide Act1, Going;
      OthersKeepGoing(g, Act1(g, w, acts[0], now), acts[1..], now, key);
    }
  }

  lemma TerminateGoes(c: Children, other: Key, key: Key)
    requires other == key || Going(c, key)
    ensures Going(Terminate(c, other), key)
  {
  }

  lemma {:induction false} DeleteKeysGo(g: Setting, y: Sys, spec: KodeSpec, keys: seq<Key>, initiated: bool, key: Key)
    requires (key in keys && R.ShouldDelete(spec, key)) || Going(y.w.children, key)
    ensures var r := R.DeleteKeys(g, y, spec, keys, initiated); r.out.Ok? ==> Going(r.y.w.children, key)
    decreases |keys|
  {
    hide Going, Others, Terminate, R.ShouldDelete;
    if keys != [] {
      if R.ShouldDelete(spec, keys[0]) {
        var z := Enter(g, y);
        if Going(y.w.children, key) { OthersKeepGoing(g, y.w, g.script(y.t).acts, y.t, key); }
        if keys[0] == key || Going(z.w.children, key) { TerminateGoes(z.w.children, keys[0], key); }
        DeleteKeysGo(g, PutChildren(z, Terminate(z.w.children, keys[0]), {}), spec, keys[1..], true, key);
      } else {
        DeleteKeysGo(g, y, spec, keys[1..], initiated, key);
      }
    }
  }

  /** With an existing secret, the secret a successful cleanup deletes is the user's own. */
  lemma CleanupTakesUsersSecret(g: Setting, y: Sys, k: Kode)
    requires D.ExistingSecret(k.spec).Some?
    ensures var c := R.Cleanup(g, y, k.spec);
            c.out.Ok? ==> Going(c.y.w.children, SecretKey(D.ExistingSecret(k.spec).value))
  {
    assert R.CleanupKeys(g, k.spec)[2] == SecretKey(D.ExistingSecret(k.spec).value);
    hide Going, R.DeleteKeys;
    DeleteKeysGo(g, y, k.spec, R.CleanupKeys(g, k.spec), false, SecretKey(D.ExistingSecret(k.spec).value));
  }
}

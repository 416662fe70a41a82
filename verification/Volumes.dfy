/** What KeepVolume promises the user: with it no claim is ever touched, without it the operator's claim goes
    with the Kode. Stated of the spec's own field. */
module Volumes {
  import opened KodeTypes
  import opened Cluster
  import opened Handlers
  import opened Deletion
  import DE = DeletionEnds
  import DS = DeletionSteps
  import D = Desired
  import R = Resources

  predicate KeepsVolume(spec: KodeSpec) { spec.storage.Some? && spec.storage.value.keepVolume == Some(true) }

  /** What the operator spares is exactly the claims of a Kode that keeps its volume. */
  lemma SparedExactly(spec: KodeSpec, key: Key)
    ensures R.ShouldDelete(spec, key) <==> !(KeepsVolume(spec) && key.ClaimKey?)
  {
  }

  // ---- with KeepVolume, whatever the others do ----

  /** While the Kode has its finalizer, no claim is newly terminating in `v`. */
  ghost predicate Spares(w: World, v: World) {
    Live(w) ==> Live(v) && forall n :: ClaimKey(n) in v.children.terminating ==> ClaimKey(n) in w.children.terminating
  }

  /** The same, but the Kode may have been let go. */
  ghost predicate SparesOnly(w: World, v: World) {
    Live(w) ==> forall n :: ClaimKey(n) in v.children.terminating ==> ClaimKey(n) in w.children.terminating
  }

  lemma SparesOn(u: World, v: World, w: World)
    requires Spares(u, v)
    ensures Spares(v, w) ==> Spares(u, w)
    ensures SparesOnly(v, w) ==> SparesOnly(u, w)
  {
  }

  lemma ActSpares(g: Setting, w: World, a: Act, now: nat)
    ensures Spares(w, Act1(g, w, a, now))
  {
    hide EpLookup, EpFailing, EpEnsured, EpPublishing;
  }

  lemma {:induction false} OthersSpare(g: Setting, w: World, acts: seq<Act>, now: nat)
    ensures Spares(w, Others(g, w, acts, now))
    decreases |acts|
  {
    hide Act1;
    if acts != [] {
      ActSpares(g, w, acts[0], now);
      OthersSpare(g, Act1(g, w, acts[0], now), acts[1..], now);
    }
  }

  lemma EnterSpares(g: Setting, y: Sys)
    ensures Spares(y.w, Enter(g, y).w)
  {
    hide Others, Spares;
    OthersSpare(g, y.w, g.script(y.t).acts, y.t);
  }

  lemma SaveSpares(g: Setting, y: Sys, s: Status)
    ensures Spares(y.w, UpdateStatus(g, y, s).y.w)
  {
    hide Enter;
    EnterSpares(g, y);
  }

  lemma {:induction false} AbsentSpares(g: Setting, y: Sys, keys: seq<Key>)
    ensures Spares(y.w, R.CheckAbsent(g, y, keys).y.w)
    decreases |keys|
  {
    hide Enter, Exists;
    if keys != [] {
      EnterSpares(g, y);
      AbsentSpares(g, Enter(g, y), keys[1..]);
    }
  }

  lemma TerminateSpares(y: Sys, key: Key)
    requires !key.ClaimKey?
    ensures Spares(y.w, PutChildren(y, Terminate(y.w.children, key), {}).w)
  {
    hide Exists;
  }

  lemma {:induction false} DeleteKeysSpare(g: Setting, y: Sys, spec: KodeSpec, keys: seq<Key>, initiated: bool)
    requires KeepsVolume(spec)
    ensures Spares(y.w, R.DeleteKeys(g, y, spec, keys, initiated).y.w)
    decreases |keys|
  {
    hide Enter, PutChildren, Terminate, R.ShouldDelete, Spares;
    if keys == [] {
      SparesSame(y.w);
    } else {
      SparedExactly(spec, keys[0]);
      if R.ShouldDelete(spec, keys[0]) {
        EnterSpares(g, y);
        var z := Enter(g, y);
        TerminateSpares(z, keys[0]);
        var p := PutChildren(z, Terminate(z.w.children, keys[0]), {});
        SparesOn(y.w, z.w, p.w);
        DeleteKeysSpare(g, p, spec, keys[1..], true);
        SparesOn(y.w, p.w, R.DeleteKeys(g, p, spec, keys[1..], true).y.w);
      } else {
        DeleteKeysSpare(g, y, spec, keys[1..], initiated);
      }
    }
  }

  lemma SparesSame(w: World)
    ensures Spares(w, w)
  {
  }

  lemma ErrorSpares(g: Setting, y: Sys, k: Kode, e: Err)
    ensures Spares(y.w, HandleReconcileError(g, y, k, e).y.w)
  {
    hide UpdateStatus, Mark3, Spares;
    SaveSpares(g, y, Failing(k, e, y.t).status);
    SparesSame(y.w);
  }

  /** A cleanup puts no claim of a Kode that keeps its volume on its way, in any interleaving, whichever calls fail. */
  lemma CleanupSparesClaims(g: Setting, y: Sys, spec: KodeSpec)
    requires Live(y.w) && spec.storage.Some? && spec.storage.value.keepVolume == Some(true)
    ensures var v := R.Cleanup(g, y, spec).y.w;
            forall n :: ClaimKey(n) in v.children.terminating ==> ClaimKey(n) in y.w.children.terminating
  {
    DeleteKeysSpare(g, y, spec, R.CleanupKeys(g, spec), false);
    hide R.DeleteKeys, R.CleanupKeys;
  }

  lemma AwaitSpares(g: Setting, y: Sys, k: Kode)
    requires KeepsVolume(k.spec)
    ensures Spares(y.w, AwaitChildren(g, y, k).y.w)
  {
    hide UpdateStatus, HandleReconcileError, R.DeleteKeys, R.CleanupKeys, Spares;
    var m := k.(status := k.status.(deletionCycle := k.status.deletionCycle + 1));
    var c := R.Cleanup(g, y, m.spec);
    DeleteKeysSpare(g, y, m.spec, R.CleanupKeys(g, m.spec), false);
    SaveSpares(g, y, m.status);
    SaveSpares(g, c.y, m.status);
    SparesOn(y.w, c.y.w, UpdateStatus(g, c.y, m.status).y.w);
    if c.out.Bad? {
      ErrorSpares(g, c.y, m, c.out.err);
      SparesOn(y.w, c.y.w, HandleReconcileError(g, c.y, m, c.out.err).y.w);
    }
  }

  lemma ReleaseSpares(g: Setting, y: Sys, spec: KodeSpec)
    ensures SparesOnly(y.w, RemoveFinalizer(g, y, spec).y.w)
    ensures RemoveFinalizer(g, y, spec).err.Some? ==> Spares(y.w, RemoveFinalizer(g, y, spec).y.w)
  {
    hide Enter;
    EnterSpares(g, y);
  }

  lemma SparesIsOnly(w: World, v: World)
    ensures Spares(w, v) ==> SparesOnly(w, v)
  {
  }

  lemma DeletingSpares(g: Setting, y: Sys, k: Kode)
    requires KeepsVolume(k.spec)
    ensures SparesOnly(y.w, HandleDeleting(g, y, k).y.w)
  {
    var m := Mark3(k, False, DeletingResource, False, DeletingResource, True, DeletingResource, y.t);
    hide Mark3, UpdateStatus, HandleReconcileError, R.CheckAbsent, R.RequiredAbsent, AwaitChildren, RemoveFinalizer, Spares, SparesOnly;
    Mark3Only(k, False, DeletingResource, False, DeletingResource, True, DeletingResource, y.t);
    SaveSpares(g, y, m.status);
    var u := UpdateStatus(g, y, m.status);
    var c := R.CheckResourcesDeleted(g, u.y, m.spec);
    AbsentSpares(g, u.y, R.RequiredAbsent(g, m.spec));
    SparesOn(y.w, u.y.w, c.y.w);
    var o := HandleDeleting(g, y, k);
    var r := RemoveFinalizer(g, c.y, m.spec);
    ReleaseSpares(g, c.y, m.spec);
    SparesOn(y.w, c.y.w, r.y.w);
    if c.out.Bad? {
      ErrorSpares(g, c.y, m, c.out.err);
      SparesOn(y.w, c.y.w, o.y.w);
    } else if !c.out.value {
      AwaitSpares(g, c.y, m);
      SparesOn(y.w, c.y.w, o.y.w);
    } else if r.err.Some? {
      ErrorSpares(g, r.y, m, r.err.value);
      SparesOn(y.w, r.y.w, o.y.w);
    }
    SparesIsOnly(y.w, o.y.w);
  }

  lemma MachineSpares(g: Setting, y: Sys, k: Kode)
    requires KeepsVolume(k.spec) && k.status.phase == Deleting
    ensures SparesOnly(y.w, RunMachine(g, y, k).y.w)
  {
    hide UpdateStatus, HandleDeleting, Spares, SparesOnly;
    var m := k.(status := k.status.(retryCount := 0));
    SaveSpares(g, y, m.status);
    var u := UpdateStatus(g, y, m.status);
    SparesIsOnly(y.w, u.y.w);
    DeletingSpares(g, y, k);
    DeletingSpares(g, u.y, m);
    DeletingPhase(g, y, k);
    DeletingPhase(g, u.y, m);
    SparesOn(y.w, u.y.w, HandleDeleting(g, u.y, m).y.w);
    hide HandleState;
  }

  /** The promise: a reconcile of a deleting Kode that keeps its volume puts no claim on its way, whatever
      the others do and whichever calls fail. */
  lemma KeptVolumesAreSpared(g: Setting, y: Sys)
    requires Live(y.w)
    ensures var z := Enter(g, y);
            z.w.kode.Some? && z.w.kode.value.deleting && z.w.kode.value.spec.storage.Some?
            && z.w.kode.value.spec.storage.value.keepVolume == Some(true) ==>
              forall n :: ClaimKey(n) in Reconcile(g, y).y.w.children.terminating ==> ClaimKey(n) in y.w.children.terminating
  {
    hide Enter, UpdateStatus, RunMachine, Spares;
    var z := Enter(g, y);
    EnterSpares(g, y);
    SparesLive(y.w, z.w);
    if z.w.kode.Some? && z.w.kode.value.deleting && KeepsVolume(z.w.kode.value.spec) {
      var k := WithPhase(z.w.kode.value, Deleting);
      SaveSpares(g, z, k.status);
      var u := UpdateStatus(g, z, k.status);
      SparesOn(y.w, z.w, u.y.w);
      SparesIsOnly(y.w, z.w);
      SparesIsOnly(y.w, u.y.w);
      GateSpares(g, u.y, k);
      SparesOn(y.w, u.y.w, AfterDeletionGate(g, u.y, k).y.w);
      hide AfterDeletionGate;
    }
  }

  lemma SparesLive(w: World, v: World)
    requires Spares(w, v) && Live(w)
    ensures Live(v)
  {
  }

  lemma GateSpares(g: Setting, y: Sys, k: Kode)
    requires KeepsVolume(k.spec) && k.status.phase == Deleting && k.finalizer
    ensures SparesOnly(y.w, AfterDeletionGate(g, y, k).y.w)
  {
    hide UpdateStatus, RunMachine, Spares, SparesOnly;
    var s := k.status.(observedGeneration := k.generation);
    SaveSpares(g, y, s);
    SparesIsOnly(y.w, UpdateStatus(g, y, s).y.w);
    MachineSpares(g, y, k);
  }

  // ---- without it ----

  /** Without KeepVolume a successful cleanup takes the claim the operator manages, in any interleaving. */
  lemma CleanupTakesVolume(g: Setting, y: Sys, spec: KodeSpec)
    requires D.ManagesClaim(spec) && spec.storage.value.keepVolume != Some(true)
    ensures var c := R.Cleanup(g, y, spec); c.out.Ok? ==> Going(c.y.w.children, ClaimKey(D.OwnClaimName(g.name)))
  {
    assert R.CleanupKeys(g, spec)[3] == ClaimKey(D.OwnClaimName(g.name));
    SparedExactly(spec, ClaimKey(D.OwnClaimName(g.name)));
    DeleteKeysGo(g, y, spec, R.CleanupKeys(g, spec), false, ClaimKey(D.OwnClaimName(g.name)));
    hide Going, R.DeleteKeys, R.CleanupKeys, R.ShouldDelete;
  }

  /** So the first reconcile of a deletion, with no failing call, leaves the claim on its way or gone, unless it
      found nothing required and let the Kode go. */
  lemma VolumeGoes(g: Setting, y: Sys)
    requires Unattended(g) && DE.Deleted(y.w) && D.ManagesClaim(y.w.kode.value.spec)
    requires y.w.kode.value.spec.storage.value.keepVolume != Some(true)
    requires y.w.kode.value.generation == y.w.kode.value.status.observedGeneration && y.w.kode.value.status.deletionCycle == 0
    ensures var v := Reconcile(g, y).y.w;
            v.kode.Some? || !g.testMode ==> Going(v.children, ClaimKey(D.OwnClaimName(g.name)))
  {
    var k := y.w.kode.value;
    var key := ClaimKey(D.OwnClaimName(g.name));
    ClaimIsTouched(g, k);
    hide Reconcile, Unattended, DS.Fewer, DS.Seen, DS.Touched, R.RequiredAbsent, Exists;
    DS.ReconcileWorks(g, y);
  }

  lemma ClaimIsTouched(g: Setting, k: Kode)
    requires D.ManagesClaim(k.spec) && k.spec.storage.value.keepVolume != Some(true) && k.status.deletionCycle == 0
    ensures ClaimKey(D.OwnClaimName(g.name)) in DS.Touched(g, k)
    ensures !g.testMode ==> ClaimKey(D.OwnClaimName(g.name)) in R.RequiredAbsent(g, k.spec)
  {
    assert R.CleanupKeys(g, k.spec)[3] == ClaimKey(D.OwnClaimName(g.name));
    assert !g.testMode ==> R.RequiredAbsent(g, k.spec)[3] == ClaimKey(D.OwnClaimName(g.name));
  }
}

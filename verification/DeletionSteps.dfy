/** One error-free reconcile of a deleting Kode, while only the environment and the garbage collector act:
    what it does to the children, to the deletion cycle and to the finalizer. */
module DeletionSteps {
  import opened KodeTypes
  import opened Cluster
  import opened Handlers
  import D = Desired
  import R = Resources

  /** From `w` to `v` only children change; none appears; what is terminating stays so until it is gone;
      and what nobody is terminating, outside the operator's delete list, stays as it is. */
  ghost predicate Shrinks(w: World, v: World, touched: set<Key>) {
    && v == w.(children := v.children)
    && (forall key :: !Exists(w.children, key) ==> !Exists(v.children, key))
    && (forall key :: key in w.children.terminating && Exists(v.children, key) ==> key in v.children.terminating)
    && (forall key :: Exists(w.children, key) && key !in w.children.terminating && key !in touched ==>
          Exists(v.children, key) && key !in v.children.terminating)
  }

  lemma ActShrinks(g: Setting, w: World, a: Act, now: nat, touched: set<Key>)
    requires w.kode.Some? && (Environmental(a) || a.Collect?)
    ensures Shrinks(w, Act1(g, w, a, now), touched)
  {
  }

  lemma {:induction false} OthersShrink(g: Setting, w: World, acts: seq<Act>, now: nat, touched: set<Key>)
    requires w.kode.Some? && forall i :: 0 <= i < |acts| ==> Environmental(acts[i]) || acts[i].Collect?
    ensures Shrinks(w, Others(g, w, acts, now), touched)
    decreases |acts|
  {
    hide Act1, Exists, Environmental;
    if acts != [] {
      ActShrinks(g, w, acts[0], now, touched);
      OthersShrink(g, Act1(g, w, acts[0], now), acts[1..], now, touched);
    }
  }

  lemma EnterShrinks(g: Setting, y: Sys, touched: set<Key>)
    requires Unattended(g) && y.w.kode.Some?
    ensures Up(g, y) && Shrinks(y.w, Enter(g, y).w, touched) && Enter(g, y).w.kode == y.w.kode
  {
    OthersShrink(g, y.w, g.script(y.t).acts, y.t, touched);
    hide Others, Exists, Environmental;
  }

  /** Like Shrinks, with this status stored. */
  ghost predicate Stores(w: World, v: World, s: Status, touched: set<Key>) {
    w.kode.Some? && Shrinks(w.(kode := Some(w.kode.value.(status := s))), v, touched)
  }

  lemma SaveStores(g: Setting, y: Sys, s: Status, touched: set<Key>)
    requires Unattended(g) && y.w.kode.Some?
    ensures UpdateStatus(g, y, s).err.None? && Stores(y.w, UpdateStatus(g, y, s).y.w, s, touched)
  {
    EnterShrinks(g, y, touched);
    hide Enter, Exists, Unattended;
  }

  // ---- an environment that removes what is terminating ----

  /** Before every call the environment removes this child if it is terminating. */
  ghost predicate Sweeps(g: Setting, key: Key) { forall n: nat :: Vanish(key) in g.script(n).acts }

  lemma {:induction false} SweepRemoves(g: Setting, w: World, acts: seq<Act>, now: nat, key: Key)
    requires w.kode.Some? && forall i :: 0 <= i < |acts| ==> Environmental(acts[i]) || acts[i].Collect?
    requires Vanish(key) in acts && (Exists(w.children, key) ==> key in w.children.terminating)
    ensures !Exists(Others(g, w, acts, now).children, key)
    decreases |acts|
  {
    ActShrinks(g, w, acts[0], now, {});
    var v := Act1(g, w, acts[0], now);
    if acts[0] == Vanish(key) {
      assert !Exists(v.children, key);
      OthersShrink(g, v, acts[1..], now, {});
    } else {
      assert Vanish(key) in acts[1..];
      hide Act1, Exists, Environmental;
      SweepRemoves(g, v, acts[1..], now, key);
    }
  }

  lemma EnterSweeps(g: Setting, y: Sys, key: Key)
    requires Unattended(g) && Sweeps(g, key) && y.w.kode.Some? && (Exists(y.w.children, key) ==> key in y.w.children.terminating)
    ensures !Exists(Enter(g, y).w.children, key)
  {
    SweepRemoves(g, y.w, g.script(y.t).acts, y.t, key);
    hide Others, Exists, Environmental;
  }

  /** Something required is there; if an environment that sweeps it was at work, nobody is deleting it. */
  ghost predicate Seen(g: Setting, w: World, keys: seq<Key>) {
    exists key :: key in keys && Exists(w.children, key) && (key in w.children.terminating ==> !Sweeps(g, key))
  }

  lemma {:induction false} AbsentShrinks(g: Setting, y: Sys, keys: seq<Key>)
    requires Unattended(g) && y.w.kode.Some?
    ensures var r := R.CheckAbsent(g, y, keys);
            && r.out.Ok? && Shrinks(y.w, r.y.w, {})
            && (r.out.value ==> forall key :: key in keys ==> !Exists(r.y.w.children, key))
            && (!r.out.value ==> Seen(g, y.w, keys))
    decreases |keys|
  {
    hide Enter, Exists, Unattended, Sweeps;
    if keys != [] {
      EnterShrinks(g, y, {});
      var z := Enter(g, y);
      assert keys[0] in keys;
      if Exists(z.w.children, keys[0]) {
        if Sweeps(g, keys[0]) && keys[0] in y.w.children.terminating {
          EnterSweeps(g, y, keys[0]);
        }
      } else {
        AbsentShrinks(g, z, keys[1..]);
        if !R.CheckAbsent(g, z, keys[1..]).out.value {
          var key :| key in keys[1..] && Exists(z.w.children, key) && (key in z.w.children.terminating ==> !Sweeps(g, key));
          assert key in keys && Exists(y.w.children, key);
        }
      }
    }
  }

  lemma TerminateShrinks(y: Sys, key: Key, touched: set<Key>)
    requires key in touched
    ensures var v := PutChildren(y, Terminate(y.w.children, key), {}).w;
            Shrinks(y.w, v, touched) && v.kode == y.w.kode && (Exists(v.children, key) ==> key in v.children.terminating)
  {
    assert y.w.owned + {} == y.w.owned;
  }

  lemma ShrinksTransitive(u: World, v: World, w: World, touched: set<Key>)
    requires Shrinks(u, v, touched) && Shrinks(v, w, touched)
    ensures Shrinks(u, w, touched)
  {
    hide Exists;
  }

  lemma {:induction false} DeleteKeysShrinks(g: Setting, y: Sys, spec: KodeSpec, keys: seq<Key>, initiated: bool,
                                             touched: set<Key>)
    requires Unattended(g) && y.w.kode.Some?
    requires forall key :: key in keys && R.ShouldDelete(spec, key) ==> key in touched
    ensures var r := R.DeleteKeys(g, y, spec, keys, initiated);
            && r.out.Ok? && Shrinks(y.w, r.y.w, touched)
            && forall key :: key in keys && R.ShouldDelete(spec, key) && Exists(r.y.w.children, key) ==> key in r.y.w.children.terminating
    decreases |keys|
  {
    hide Enter, Exists, Unattended, R.ShouldDelete, Terminate, PutChildren, Shrinks;
    if keys == [] {
      assert Shrinks(y.w, y.w, touched) by { ShrinksSame(y.w, touched); }
    } else if R.ShouldDelete(spec, keys[0]) {
      EnterShrinks(g, y, touched);
      var z := Enter(g, y);
      TerminateShrinks(z, keys[0], touched);
      var p := PutChildren(z, Terminate(z.w.children, keys[0]), {});
      ShrinksTransitive(y.w, z.w, p.w, touched);
      DeleteKeysShrinks(g, p, spec, keys[1..], true, touched);
      var r := R.DeleteKeys(g, p, spec, keys[1..], true);
      ShrinksTransitive(y.w, p.w, r.y.w, touched);
      StaysTerminating(p.w, r.y.w, keys[0], touched);
    } else {
      DeleteKeysShrinks(g, y, spec, keys[1..], initiated, touched);
    }
  }

  lemma ShrinksSame(w: World, touched: set<Key>)
    ensures Shrinks(w, w, touched)
  {
  }

  lemma StaysTerminating(w: World, v: World, key: Key, touched: set<Key>)
    requires Shrinks(w, v, touched) && (Exists(w.children, key) ==> key in w.children.terminating)
    ensures Exists(v.children, key) ==> key in v.children.terminating
  {
    hide Exists;
  }

  predicate Covered(g: Setting, spec: KodeSpec) {
    forall key :: key in R.RequiredAbsent(g, spec) ==> key in R.CleanupKeys(g, spec) && R.ShouldDelete(spec, key)
  }

  /** The delete list covers the list required absent exactly when the volume is not a kept, managed one
      outside test mode. */
  lemma CleanupCoversRequired(g: Setting, spec: KodeSpec)
    ensures Covered(g, spec) <==> !(D.ManagesClaim(spec) && spec.storage.value.keepVolume == Some(true) && !g.testMode)
  {
    var c := ClaimKey(D.ClaimName(g.name, spec));
    var keys := R.CleanupKeys(g, spec);
    assert keys[0] == SetKey && keys[1] == ServiceKey && keys[2] == SecretKey(D.SecretName(g.name, spec));
    assert D.ManagesClaim(spec) ==> keys[3] == c;
    if R.KeepsVolume(spec) && D.ManagesClaim(spec) && !g.testMode {
      assert R.RequiredAbsent(g, spec)[3] == c && !R.ShouldDelete(spec, c);
    } else {
      forall key | key in R.RequiredAbsent(g, spec) ensures key in keys && R.ShouldDelete(spec, key) {
        assert key == SetKey || key == ServiceKey || key == SecretKey(D.SecretName(g.name, spec))
               || (key == c && D.ManagesClaim(spec) && !g.testMode);
      }
    }
  }

  // ---- children only, whatever became of the Kode ----

  /** How many of the keys exist. */
  function Count(c: Children, keys: seq<Key>): nat {
    if keys == [] then 0 else (if Exists(c, keys[0]) then 1 else 0) + Count(c, keys[1..])
  }

  lemma {:induction false} CountShrinks(c: Children, d: Children, keys: seq<Key>)
    requires forall key :: !Exists(c, key) ==> !Exists(d, key)
    ensures Count(d, keys) <= Count(c, keys) <= |keys|
    ensures (exists key :: key in keys && Exists(c, key) && !Exists(d, key)) ==> Count(d, keys) < Count(c, keys)
    ensures (exists key :: key in keys && Exists(c, key)) ==> Count(c, keys) > 0
    ensures Count(c, keys) > 0 ==> exists key :: key in keys && Exists(c, key)
  {
    hide Exists;
    if keys != [] {
      assert keys[0] in keys;
      CountShrinks(c, d, keys[1..]);
    }
  }

  /** Children only, whatever became of the Kode. */
  ghost predicate Fewer(w: World, v: World, touched: set<Key>) {
    Shrinks(w.(kode := None, released := None), v.(kode := None, released := None), touched)
  }

  lemma FewerTransitive(u: World, v: World, w: World, touched: set<Key>)
    requires Fewer(u, v, touched) && Fewer(v, w, touched)
    ensures Fewer(u, w, touched)
  {
    hide Exists;
  }

  lemma StoresFewer(w: World, v: World, s: Status, touched: set<Key>)
    requires Stores(w, v, s, touched)
    ensures Fewer(w, v, touched) && v.kode == Some(w.kode.value.(status := s))
  {
    hide Exists;
  }

  lemma ShrinksFewer(w: World, v: World, touched: set<Key>)
    requires Shrinks(w, v, touched)
    ensures Fewer(w, v, touched) && v.kode == w.kode
  {
    hide Exists;
  }

  lemma FewerWidens(w: World, v: World, touched: set<Key>)
    requires Fewer(w, v, {})
    ensures Fewer(w, v, touched)
  {
    hide Exists;
  }

  // ---- the deleting handler ----

  /** What a reconcile with this copy may delete: nothing once the one cleanup is over. */
  function Touched(g: Setting, k: Kode): set<Key> {
    if k.status.deletionCycle == 0 then set key | key in R.CleanupKeys(g, k.spec) && R.ShouldDelete(k.spec, key) else {}
  }

  /** One more deletion cycle has been stored for `k`, and all it may delete is on its way. */
  ghost predicate Cycled(g: Setting, w: World, v: World, k: Kode) {
    && w.kode.Some? && v.kode.Some?
    && v.kode.value == w.kode.value.(status := v.kode.value.status)
    && v.kode.value.status.deletionCycle == k.status.deletionCycle + 1
    && v.kode.value.status.observedGeneration == k.status.observedGeneration
    && (forall key :: key in Touched(g, k) && Exists(v.children, key) ==> key in v.children.terminating)
    && Fewer(w, v, Touched(g, k))
  }

  lemma StoresTerminating(w: World, v: World, s: Status, touched: set<Key>)
    requires Stores(w, v, s, touched)
    requires forall key :: key in touched && Exists(w.children, key) ==> key in w.children.terminating
    ensures forall key :: key in touched && Exists(v.children, key) ==> key in v.children.terminating
  {
    hide Exists;
  }

  lemma AwaitCycles(g: Setting, y: Sys, k: Kode)
    requires Unattended(g) && y.w.kode.Some?
    ensures var o := AwaitChildren(g, y, k); o.err.None? && o.phase == Deleting && o.y.w.kode.Some? && Cycled(g, y.w, o.y.w, k)
  {
    hide UpdateStatus, HandleReconcileError, R.DeleteKeys, R.CleanupKeys, R.ShouldDelete, Unattended, Shrinks, Stores, Exists,
      Fewer;
    var m := k.(status := k.status.(deletionCycle := k.status.deletionCycle + 1));
    var touched := Touched(g, k);
    if k.status.deletionCycle == 0 {
      var c := R.Cleanup(g, y, m.spec);
      DeleteKeysShrinks(g, y, m.spec, R.CleanupKeys(g, k.spec), false, touched);
      ShrinksFewer(y.w, c.y.w, touched);
      SaveStores(g, c.y, m.status, touched);
      var v := UpdateStatus(g, c.y, m.status).y.w;
      StoresFewer(c.y.w, v, m.status, touched);
      FewerTransitive(y.w, c.y.w, v, touched);
      StoresTerminating(c.y.w, v, m.status, touched);
    } else {
      SaveStores(g, y, m.status, touched);
      StoresFewer(y.w, UpdateStatus(g, y, m.status).y.w, m.status, touched);
    }
  }

  /** What the deleting part of a reconcile does for a copy `k` of the Kode in `w`: it lets go of it, all
      that is required absent being so and nothing else touched; or it stores one more cycle, having seen
      something required. */
  ghost predicate Works(g: Setting, w: World, v: World, k: Kode) {
    if v.kode.None? then Fewer(w, v, {}) && forall key :: key in R.RequiredAbsent(g, k.spec) ==> !Exists(v.children, key)
    else Cycled(g, w, v, k) && Seen(g, w, R.RequiredAbsent(g, k.spec))
  }

  lemma Released(g: Setting, y: Sys, spec: KodeSpec)
    requires Unattended(g) && y.w.kode.Some? && y.w.kode.value.deleting
    ensures var r := RemoveFinalizer(g, y, spec); r.err.None? && r.y.w.kode.None? && Fewer(y.w, r.y.w, {})
  {
    EnterShrinks(g, y, {});
    hide Enter, Exists, Unattended;
  }

  lemma GoneStaysGone(w: World, v: World, keys: seq<Key>)
    requires Fewer(w, v, {}) && forall key :: key in keys ==> !Exists(w.children, key)
    ensures forall key :: key in keys ==> !Exists(v.children, key)
  {
    assert Shrinks(w.(kode := None, released := None), v.(kode := None, released := None), {});
    hide Exists;
  }

  lemma DeletingWorks(g: Setting, y: Sys, k: Kode)
    requires Unattended(g) && y.w.kode.Some? && y.w.kode.value.deleting && k.finalizer
    ensures var o := HandleDeleting(g, y, k); o.err.None? && o.phase == Deleting && Works(g, y.w, o.y.w, k)
  {
    var m := Mark3(k, False, DeletingResource, False, DeletingResource, True, DeletingResource, y.t);
    Mark3Only(k, False, DeletingResource, False, DeletingResource, True, DeletingResource, y.t);
    var keys := R.RequiredAbsent(g, k.spec);
    hide Mark3, UpdateStatus, HandleReconcileError, R.CheckAbsent, R.RequiredAbsent, AwaitChildren, RemoveFinalizer,
      Exists, Unattended, Shrinks, Stores, Fewer, Cycled, Seen;
    SaveStores(g, y, m.status, {});
    var u := UpdateStatus(g, y, m.status);
    StoresFewer(y.w, u.y.w, m.status, {});
    var c := R.CheckResourcesDeleted(g, u.y, m.spec);
    AbsentShrinks(g, u.y, keys);
    ShrinksFewer(u.y.w, c.y.w, {});
    FewerTransitive(y.w, u.y.w, c.y.w, {});
    if c.out.value {
      Released(g, c.y, m.spec);
      var r := RemoveFinalizer(g, c.y, m.spec);
      FewerTransitive(y.w, c.y.w, r.y.w, {});
      GoneStaysGone(c.y.w, r.y.w, keys);
    } else {
      AwaitCycles(g, c.y, m);
      var o := AwaitChildren(g, c.y, m);
      CycledAfter(g, y.w, c.y.w, o.y.w, m, m.status);
      CycledSame(g, y.w, o.y.w, m, k);
      SeenBefore(g, y.w, u.y.w, keys);
    }
  }

  lemma CycledSame(g: Setting, w: World, v: World, m: Kode, k: Kode)
    requires Cycled(g, w, v, m) && m.spec == k.spec
    requires m.status.deletionCycle == k.status.deletionCycle && m.status.observedGeneration == k.status.observedGeneration
    ensures Cycled(g, w, v, k)
  {
    assert Touched(g, m) == Touched(g, k);
    hide Exists, Fewer, Touched;
  }

  lemma CycledAfter(g: Setting, u: World, w: World, v: World, k: Kode, s: Status)
    requires Fewer(u, w, {}) && u.kode.Some? && w.kode == Some(u.kode.value.(status := s)) && Cycled(g, w, v, k)
    ensures Cycled(g, u, v, k)
  {
    hide Exists, Fewer, Touched;
    FewerWidens(u, w, Touched(g, k));
    FewerTransitive(u, w, v, Touched(g, k));
  }

  lemma SeenBefore(g: Setting, w: World, v: World, keys: seq<Key>)
    requires Fewer(w, v, {}) && Seen(g, v, keys)
    ensures Seen(g, w, keys)
  {
    assert Shrinks(w.(kode := None, released := None), v.(kode := None, released := None), {});
    hide Exists, Sweeps;
    var key :| key in keys && Exists(v.children, key) && (key in v.children.terminating ==> !Sweeps(g, key));
    assert Exists(w.children, key);
  }

  lemma WorksAfter(g: Setting, u: World, w: World, v: World, k: Kode, s: Status)
    requires Fewer(u, w, {}) && u.kode.Some? && w.kode == Some(u.kode.value.(status := s)) && Works(g, w, v, k)
    ensures Works(g, u, v, k)
  {
    hide Exists, R.RequiredAbsent, Fewer, Cycled, Seen;
    if v.kode.None? {
      FewerTransitive(u, w, v, {});
    } else {
      CycledAfter(g, u, w, v, k, s);
      SeenBefore(g, u, w, R.RequiredAbsent(g, k.spec));
    }
  }

  lemma SameWorks(g: Setting, w: World, v: World, m: Kode, k: Kode)
    requires Works(g, w, v, m) && m.spec == k.spec
    requires m.status.deletionCycle == k.status.deletionCycle && m.status.observedGeneration == k.status.observedGeneration
    ensures Works(g, w, v, k)
  {
    hide Exists, R.RequiredAbsent, Fewer, Cycled, Seen;
    if v.kode.Some? {
      CycledSame(g, w, v, m, k);
    }
  }

  lemma MachineWorks(g: Setting, y: Sys, k: Kode)
    requires Unattended(g) && y.w.kode.Some? && y.w.kode.value.deleting && k.finalizer && k.status.phase == Deleting
    ensures Works(g, y.w, RunMachine(g, y, k).y.w, k)
  {
    var m := k.(status := k.status.(retryCount := 0));
    hide UpdateStatus, HandleDeleting, Exists, Unattended, Stores, Fewer, Works;
    if k.status.retryCount > 0 {
      SaveStores(g, y, m.status, {});
      var u := UpdateStatus(g, y, m.status);
      StoresFewer(y.w, u.y.w, m.status, {});
      DeletingWorks(g, u.y, m);
      SameWorks(g, u.y.w, HandleDeleting(g, u.y, m).y.w, m, k);
      WorksAfter(g, y.w, u.y.w, HandleDeleting(g, u.y, m).y.w, k, m.status);
    } else {
      DeletingWorks(g, y, k);
    }
  }

  /** Only the generation has been caught up with. */
  ghost predicate CaughtUp(w: World, v: World) {
    && w.kode.Some? && v.kode.Some?
    && Fewer(w, v, {})
    && v.kode.value == w.kode.value.(status := v.kode.value.status)
    && v.kode.value.status.observedGeneration == w.kode.value.generation
    && v.kode.value.status.deletionCycle == w.kode.value.status.deletionCycle
  }

  lemma FewerExists(w: World, v: World, touched: set<Key>)
    requires Fewer(w, v, touched)
    ensures forall key :: !Exists(w.children, key) ==> !Exists(v.children, key)
  {
    assert Shrinks(w.(kode := None, released := None), v.(kode := None, released := None), touched);
    hide Exists;
  }

  lemma WorksExists(g: Setting, w: World, v: World, k: Kode)
    requires Works(g, w, v, k)
    ensures forall key :: !Exists(w.children, key) ==> !Exists(v.children, key)
  {
    hide Exists, Fewer, Seen, Touched, R.RequiredAbsent;
    FewerExists(w, v, if v.kode.None? then {} else Touched(g, k));
  }

  /** The whole reconcile. */
  lemma ReconcileWorks(g: Setting, y: Sys)
    requires Unattended(g) && y.w.kode.Some? && y.w.kode.value.deleting && y.w.kode.value.finalizer
    ensures var k := y.w.kode.value;
            var v := Reconcile(g, y).y.w;
            if k.generation != k.status.observedGeneration then CaughtUp(y.w, v) else Works(g, y.w, v, k)
    ensures forall key :: !Exists(Enter(g, y).w.children, key) ==> !Exists(Reconcile(g, y).y.w.children, key)
  {
    var k := y.w.kode.value;
    EnterShrinks(g, y, {});
    var z := Enter(g, y);
    ShrinksFewer(y.w, z.w, {});
    hide UpdateStatus, Exists, Unattended, Stores, Fewer, Works, RunMachine, Enter, Shrinks;
    var m := WithPhase(k, Deleting);
    SaveStores(g, z, m.status, {});
    var u := UpdateStatus(g, z, m.status);
    StoresFewer(z.w, u.y.w, m.status, {});
    FewerTransitive(y.w, z.w, u.y.w, {});
    FewerExists(z.w, u.y.w, {});
    if k.generation != k.status.observedGeneration {
      var n := m.status.(observedGeneration := k.generation);
      SaveStores(g, u.y, n, {});
      var v := UpdateStatus(g, u.y, n);
      StoresFewer(u.y.w, v.y.w, n, {});
      FewerTransitive(y.w, u.y.w, v.y.w, {});
      FewerExists(u.y.w, v.y.w, {});
    } else {
      MachineWorks(g, u.y, m);
      WorksExists(g, u.y.w, RunMachine(g, u.y, m).y.w, m);
      SameWorks(g, u.y.w, RunMachine(g, u.y, m).y.w, m, k);
      WorksAfter(g, y.w, u.y.w, RunMachine(g, u.y, m).y.w, k, m.status);
    }
  }
}

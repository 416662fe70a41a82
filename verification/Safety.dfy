/** Every API call of every handler keeps the invariants, with the others acting before each call and
    any call failing; from this, what every reconcile stores and what every run keeps. */
module Safety {
  import opened KodeTypes
  import opened Cluster
  import opened Invariants
  import opened Handlers
  import C = Conditions
  import D = Desired
  import R = Resources
  import T = Templates

  // ---- the copy a handler works on ----

  /** Every status stored since `past` has this phase, this observed generation and this retry count. */
  ghost predicate LogIs(log: seq<Status>, past: seq<Status>, ph: Phase, generation: int, retries: int) {
    && past <= log
    && forall i :: |past| <= i < |log| ==>
         log[i].phase == ph && log[i].observedGeneration == generation && log[i].retryCount == retries
  }

  ghost predicate CopyOk(g: Setting, s0: KodeSpec, w: World, k: Kode) {
    && StatusOk(k.status)
    && k.status.phase != Uninitialised
    && k.status.observedGeneration == k.generation
    && k.finalizer
    && Live(w) && k.generation <= w.kode.value.generation && (k.deleting ==> w.kode.value.deleting)
    && (k.status.phase == Deleting <==> k.deleting)
    && (k.status.phase != Failed ==> k.status.retryCount == 0)
    && (KeepsNames(g, s0) ==> SameNames(k.spec, s0))
    && (KeepsRef(g, s0) ==> k.spec.templateRef == s0.templateRef && Published(g, s0, w, k.status))
  }

  ghost predicate Holds(g: Setting, s0: KodeSpec, y: Sys, k: Kode, past: seq<Status>, ph: Phase) {
    Inv(g, s0, y.w) && CopyOk(g, s0, y.w, k) && k.status.phase == ph && LogIs(y.log, past, ph, k.generation, k.status.retryCount)
  }

  lemma LaterCopy(g: Setting, s0: KodeSpec, w: World, v: World, k: Kode)
    requires CopyOk(g, s0, w, k) && Later(w, v)
    ensures CopyOk(g, s0, v, k)
  {
    hide StatusOk, KeepsNames, KeepsRef, SameNames, Exists, ThePort, TheUrl;
  }

  lemma EnterHolds(g: Setting, s0: KodeSpec, y: Sys, k: Kode, past: seq<Status>, ph: Phase)
    requires Holds(g, s0, y, k, past, ph)
    ensures Holds(g, s0, Enter(g, y), k, past, ph)
    ensures Later(y.w, Enter(g, y).w)
  {
    EnterKeeps(g, s0, y);
    LaterCopy(g, s0, y.w, Enter(g, y).w, k);
    hide Inv, CopyOk, Later, Others;
  }

  /** Storing a good copy. */
  lemma StoreKeepsInv(g: Setting, s0: KodeSpec, w: World, k: Kode)
    requires Inv(g, s0, w) && CopyOk(g, s0, w, k)
    ensures Inv(g, s0, StoreStatus(w, k.status))
    ensures CopyOk(g, s0, StoreStatus(w, k.status), k)
  {
    hide StatusOk, KeepsNames, KeepsRef, SameNames, Exists, IsOwn, OwnUnder, ThePort, TheUrl, R.RequiredAbsent;
  }

  lemma SaveHolds(g: Setting, s0: KodeSpec, y: Sys, k: Kode, past: seq<Status>, ph: Phase)
    requires Holds(g, s0, y, k, past, ph)
    ensures Holds(g, s0, UpdateStatus(g, y, k.status).y, k, past, ph)
  {
    EnterHolds(g, s0, y, k, past, ph);
    StoreKeepsInv(g, s0, Enter(g, y).w, k);
    hide Inv, CopyOk, Later, Enter;
  }

  /** A local change that keeps what the invariants look at. */
  lemma ChangeHolds(g: Setting, s0: KodeSpec, y: Sys, k: Kode, m: Kode, past: seq<Status>, ph: Phase)
    requires Holds(g, s0, y, k, past, ph)
    requires m == k.(status := m.status)
    requires m.status.phase == ph && m.status.observedGeneration == k.generation && m.status.kodeUrl == k.status.kodeUrl
    requires m.status.kodePort == k.status.kodePort || Some(m.status.kodePort) == ThePort(g, k.spec)
    requires StatusOk(m.status) && m.status.retryCount == k.status.retryCount
    ensures Holds(g, s0, y, m, past, ph)
  {
    hide Inv, StatusOk, KeepsNames, KeepsRef, SameNames, TheUrl, Live;
  }

  /** Before anything is stored, a Failed copy may also change its retry count. */
  lemma RetryHolds(g: Setting, s0: KodeSpec, y: Sys, k: Kode, m: Kode)
    requires Holds(g, s0, y, k, y.log, Failed)
    requires m == k.(status := m.status)
    requires m.status.phase == Failed && m.status.observedGeneration == k.generation && m.status.kodeUrl == k.status.kodeUrl
    requires m.status.kodePort == k.status.kodePort && StatusOk(m.status)
    ensures Holds(g, s0, y, m, y.log, Failed)
  {
    hide Inv, StatusOk, KeepsNames, KeepsRef, SameNames, TheUrl, Live;
  }

  lemma Mark3Meaning(k: Kode, a: ConditionStatus, wa: Reason, b: ConditionStatus, wb: Reason, c: ConditionStatus,
                     wc: Reason, now: nat)
    ensures var m := Mark3(k, a, wa, b, wb, c, wc, now);
            && m == k.(status := k.status.(conditions := m.status.conditions))
            && C.Is(m.status.conditions, Ready, a) && C.Is(m.status.conditions, Available, b) && C.Is(m.status.conditions, Progressing, c)
            && HasAll(m.status)
  {
    var cs := k.status.conditions;
    var c1 := C.Set(cs, Condition(Ready, a, wa, now));
    var c2 := C.Set(c1, Condition(Available, b, wb, now));
    C.SetMeaning(cs, Condition(Ready, a, wa, now));
    C.SetMeaning(c1, Condition(Available, b, wb, now));
    C.SetMeaning(c2, Condition(Progressing, c, wc, now));
  }

  lemma Mark2Meaning(k: Kode, c: ConditionStatus, wc: Reason, a: ConditionStatus, wa: Reason, now: nat)
    ensures var m := Mark2(k, c, wc, a, wa, now);
            && m == k.(status := k.status.(conditions := m.status.conditions))
            && C.Is(m.status.conditions, Ready, a) && C.Is(m.status.conditions, Progressing, c)
            && (C.Has(k.status.conditions, Available) ==> HasAll(m.status))
  {
    var cs := k.status.conditions;
    var c1 := C.Set(cs, Condition(Progressing, c, wc, now));
    C.SetMeaning(cs, Condition(Progressing, c, wc, now));
    C.SetMeaning(c1, Condition(Ready, a, wa, now));
  }

  lemma Mark3Holds(g: Setting, s0: KodeSpec, y: Sys, k: Kode, a: ConditionStatus, wa: Reason, b: ConditionStatus,
                   wb: Reason,
                   c: ConditionStatus, wc: Reason, now: nat, past: seq<Status>, ph: Phase)
    requires Holds(g, s0, y, k, past, ph)
    ensures Holds(g, s0, y, Mark3(k, a, wa, b, wb, c, wc, now), past, ph)
    ensures HasAll(Mark3(k, a, wa, b, wb, c, wc, now).status)
  {
    Mark3Meaning(k, a, wa, b, wb, c, wc, now);
    ChangeHolds(g, s0, y, k, Mark3(k, a, wa, b, wb, c, wc, now), past, ph) by { hide Mark3, Inv; }
  }

  lemma Mark2Holds(g: Setting, s0: KodeSpec, y: Sys, k: Kode, c: ConditionStatus, wc: Reason, a: ConditionStatus,
                   wa: Reason,
                   now: nat, past: seq<Status>, ph: Phase)
    requires Holds(g, s0, y, k, past, ph) && Settled(ph)
    ensures Holds(g, s0, y, Mark2(k, c, wc, a, wa, now), past, ph)
    ensures HasAll(Mark2(k, c, wc, a, wa, now).status)
  {
    Mark2Meaning(k, c, wc, a, wa, now);
    ChangeHolds(g, s0, y, k, Mark2(k, c, wc, a, wa, now), past, ph) by { hide Mark2, Inv; }
  }

  // ---- work on the children ----

  /** The configuration belongs to the copy. */
  predicate CfgOf(g: Setting, spec: KodeSpec, cfg: D.Config) {
    && cfg.spec == spec
    && cfg.credentials.existingSecret == D.ExistingSecret(spec)
    && T.Visible(g.store, spec.templateRef) == Ok(cfg.template)
  }

  /** Writing children, possibly new ones, while the finalizer is on. */
  lemma PutHolds(g: Setting, s0: KodeSpec, y: Sys, k: Kode, c: Children, keys: set<Key>, past: seq<Status>, ph: Phase)
    requires Holds(g, s0, y, k, past, ph)
    requires forall key :: IsOwn(g, key) && Exists(c, key) ==> Exists(y.w.children, key) || key in keys
    requires forall key :: key in keys ==> OwnUnder(g, k.spec, key)
    requires c.service == y.w.children.service
             || (ThePort(g, k.spec).Some? && c.service.Some? && c.service.value.ports == [ServicePort(TCP, ThePort(g, k.spec).value, ThePort(g, k.spec).value)])
    ensures Holds(g, s0, PutChildren(y, c, keys), k, past, ph)
  {
    hide StatusOk, KeepsNames, KeepsRef, TheUrl, R.RequiredAbsent, Exists;
  }

  lemma DeleteOutdatedHolds(g: Setting, s0: KodeSpec, y: Sys, listed: seq<Pod>, cfg: D.Config, desired: StatefulSet,
                            k: Kode, past: seq<Status>, ph: Phase)
    requires Holds(g, s0, y, k, past, ph)
    ensures Holds(g, s0, R.DeleteOutdated(g, y, listed, cfg, desired), k, past, ph)
    decreases |listed|
  {
    hide Holds, Enter, D.PodOutdated, PutChildren, OwnUnder, IsOwn;
    if listed != [] {
      if D.PodOutdated(listed[0], cfg, desired) {
        var z := Enter(g, y);
        EnterHolds(g, s0, y, k, past, ph);
        var c := z.w.children;
        var next := if Up(g, y) then PutChildren(z, c.(pods := R.WithoutPod(c.pods, listed[0].name)), {}) else z;
        if Up(g, y) {
          PutHolds(g, s0, z, k, c.(pods := R.WithoutPod(c.pods, listed[0].name)), {}, past, ph);
        }
        DeleteOutdatedHolds(g, s0, next, listed[1..], cfg, desired, k, past, ph);
      } else {
        DeleteOutdatedHolds(g, s0, y, listed[1..], cfg, desired, k, past, ph);
      }
    }
  }

  lemma DetectSetHolds(g: Setting, s0: KodeSpec, y: Sys, cfg: D.Config, k: Kode, past: seq<Status>, ph: Phase)
    requires Holds(g, s0, y, k, past, ph)
    ensures Holds(g, s0, R.DetectSet(g, y, cfg).y, k, past, ph)
  {
    hide Holds, Enter, D.DesiredSet, R.DeleteOutdated, D.SetSpecDiffers, D.AnyOutdated, D.ImagesOf;
    var z := Enter(g, y);
    EnterHolds(g, s0, y, k, past, ph);
    if D.DesiredSet(g.lib, g.name, cfg).Ok? {
      EnterHolds(g, s0, z, k, past, ph);
      var v := Enter(g, z);
      DeleteOutdatedHolds(g, s0, v, v.w.children.pods, cfg, D.DesiredSet(g.lib, g.name, cfg).value, k, past, ph);
    }
  }

  lemma DetectHolds(g: Setting, s0: KodeSpec, y: Sys, spec: KodeSpec, cfg: D.Config, k: Kode, past: seq<Status>,
                    ph: Phase)
    requires Holds(g, s0, y, k, past, ph)
    ensures Holds(g, s0, R.DetectChanges(g, y, spec, cfg).y, k, past, ph)
  {
    hide Holds, Enter, R.DetectSet, D.SecretStale, D.ServiceStale, D.ClaimDiffers, D.SecretName, D.ClaimName;
    EnterHolds(g, s0, y, k, past, ph);
    var a := R.DetectSecret(g, y, spec, cfg).y;
    EnterHolds(g, s0, a, k, past, ph);
    var b := R.DetectService(g, a, cfg).y;
    DetectSetHolds(g, s0, b, cfg, k, past, ph);
    var c := R.DetectSet(g, b, cfg).y;
    EnterHolds(g, s0, c, k, past, ph);
  }

  lemma EnsurePartHolds(g: Setting, s0: KodeSpec, y: Sys, cfg: D.Config, p: R.Part, k: Kode, past: seq<Status>,
                        ph: Phase)
    requires Holds(g, s0, y, k, past, ph) && CfgOf(g, k.spec, cfg)
    ensures var r := R.EnsurePart(g, y, k.spec, cfg, p);
            Holds(g, s0, r.y, k, past, ph) && (r.out.Ok? ==> CfgOf(g, k.spec, r.out.value))
  {
    hide Holds, Enter, D.DesiredSet, D.EnsuredSet, D.EnsuredSecret, D.EnsuredClaim, PutChildren, T.Visible;
    var z := Enter(g, y);
    var c := z.w.children;
    EnterHolds(g, s0, y, k, past, ph);
    match p {
      case SecretPart =>
        var n := D.SecretName(g.name, k.spec);
        if D.ExistingSecret(k.spec).None? {
          PutHolds(g, s0, z, k, c.(secrets := c.secrets[n := D.EnsuredSecret(SecretAt(c, n), cfg)]), {SecretKey(n)}, past, ph);
        }
      case ServicePart =>
        PutHolds(g, s0, z, k, c.(service := Some(D.DesiredService(cfg))), {ServiceKey}, past, ph);
      case SetPart =>
        if D.DesiredSet(g.lib, g.name, cfg).Ok? {
          PutHolds(g, s0, z, k, c.(stateful := Some(D.EnsuredSet(c.stateful, D.DesiredSet(g.lib, g.name, cfg).value))), {SetKey}, past, ph);
        }
      case ClaimPart =>
        if D.ManagesClaim(k.spec) {
          var n := D.ClaimName(g.name, k.spec);
          var d := D.DesiredClaim(k.spec.storage.value);
          if d.Ok? {
            PutHolds(g, s0, z, k, c.(claims := c.claims[n := D.EnsuredClaim(ClaimAt(c, n), d.value)]), {ClaimKey(n)}, past, ph);
          }
        }
    }
  }

  lemma {:induction false} ApplyHolds(g: Setting, s0: KodeSpec, y: Sys, cfg: D.Config, changes: set<R.Part>,
                                      order: seq<R.Part>, k: Kode, past: seq<Status>, ph: Phase)
    requires Holds(g, s0, y, k, past, ph) && CfgOf(g, k.spec, cfg)
    ensures Holds(g, s0, R.ApplyParts(g, y, k.spec, cfg, changes, order).y, k, past, ph)
    decreases |order|
  {
    hide Holds, R.EnsurePart, CfgOf;
    if order != [] {
      if order[0] in changes {
        EnsurePartHolds(g, s0, y, cfg, order[0], k, past, ph);
        var r := R.EnsurePart(g, y, k.spec, cfg, order[0]);
        if r.out.Ok? {
          ApplyHolds(g, s0, r.y, r.out.value, changes, order[1..], k, past, ph);
        }
      } else {
        ApplyHolds(g, s0, y, cfg, changes, order[1..], k, past, ph);
      }
    }
  }

  lemma ValidateHolds(g: Setting, s0: KodeSpec, y: Sys, spec: KodeSpec, cfg: D.Config, k: Kode, past: seq<Status>,
                      ph: Phase)
    requires Holds(g, s0, y, k, past, ph)
    ensures Holds(g, s0, R.ValidateConfiguration(g, y, spec, cfg).y, k, past, ph)
  {
    hide Holds, Enter, D.SecretValid, D.ServiceValid, D.SetValid, D.ValidateClaim, D.SecretName, D.ClaimName;
    EnterHolds(g, s0, y, k, past, ph);
    var a := Enter(g, y);
    EnterHolds(g, s0, a, k, past, ph);
    var b := Enter(g, a);
    EnterHolds(g, s0, b, k, past, ph);
    EnterHolds(g, s0, Enter(g, b), k, past, ph);
  }

  lemma {:induction false} ChecksHold(g: Setting, s0: KodeSpec, y: Sys, spec: KodeSpec, cfg: D.Config,
                                      checks: seq<R.Check>, k: Kode, past: seq<Status>, ph: Phase)
    requires Holds(g, s0, y, k, past, ph)
    ensures Holds(g, s0, R.RunChecks(g, y, spec, cfg, checks).y, k, past, ph)
    ensures R.RunChecks(g, y, spec, cfg, checks).out != Bad(NilPointer)
    decreases |checks|
  {
    hide Holds, Enter, D.SecretHasFields, D.ServiceHasPort, D.PodsReady, D.SecretName, D.ClaimName;
    if checks != [] {
      EnterHolds(g, s0, y, k, past, ph);
      var r := R.RunCheck(g, y, spec, cfg, checks[0]);
      hide R.RunCheck;
      if r.out.Ok? && r.out.value {
        ChecksHold(g, s0, r.y, spec, cfg, checks[1..], k, past, ph);
      }
    }
  }

  lemma RuntimeHolds(g: Setting, s0: KodeSpec, y: Sys, k: Kode, r: string, past: seq<Status>, ph: Phase)
    requires Holds(g, s0, y, k, past, ph)
    ensures Holds(g, s0, y, k.(status := k.status.(runtime := Some(r))), past, ph)
  {
    ChangeHolds(g, s0, y, k, k.(status := k.status.(runtime := Some(r))), past, ph);
    hide Holds, Inv;
  }

  /** Fetching changes nothing of the copy but its runtime, and what it fetches is the stored template. */
  lemma FetchCopies(g: Setting, y: Sys, k: Kode)
    ensures var f := FetchTemplates(g, y, k);
            && f.k == k.(status := k.status.(runtime := f.k.status.runtime))
            && (f.out.Ok? ==> T.Visible(g.store, k.spec.templateRef) == f.out && CfgOf(g, k.spec, D.InitConfig(g.name, k.spec, f.out.value)))
            && f.out != Bad(NilPointer)
  {
    hide Enter, T.IsContainerKind, T.FetchTemplate, D.CreateLabels;
  }

  lemma FetchHolds(g: Setting, s0: KodeSpec, y: Sys, k: Kode, past: seq<Status>, ph: Phase)
    requires Holds(g, s0, y, k, past, ph)
    ensures var f := FetchTemplates(g, y, k); Holds(g, s0, f.y, f.k, past, ph)
  {
    hide Enter, Holds, T.IsContainerKind, T.Visible, UpdateStatus;
    EnterHolds(g, s0, y, k, past, ph);
    var v := T.Visible(g.store, k.spec.templateRef);
    if v.Ok? {
      RuntimeHolds(g, s0, Enter(g, y), k, v.value.spec.runtimeClass, past, ph);
      SaveHolds(g, s0, Enter(g, y), k.(status := k.status.(runtime := Some(v.value.spec.runtimeClass))), past, ph);
    }
  }

  lemma SaveErrs(g: Setting, y: Sys, s: Status)
    ensures UpdateStatus(g, y, s).err != Some(NilPointer)
  {
  }
}

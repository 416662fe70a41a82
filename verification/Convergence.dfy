/** Detect, apply, validate and ready check describe the same children: apply reaches what detect looks
    for, a half-finished apply can be resumed, and fresh children pass validation. While nobody else acts;
    calls may fail. */
module Convergence {
  import opened KodeTypes
  import opened Cluster
  import opened Desired
  import opened Resources

  lemma EnterAlone(g: Setting, y: Sys)
    requires Alone(g)
    ensures Enter(g, y) == y.(t := y.t + 1)
  {
  }

  // ---- what is stale, read off the children ----

  predicate SetStale(c: Children, cfg: Config, desired: Outcome<StatefulSet>) {
    c.stateful.None?
    || (desired.Ok? && (SetSpecDiffers(c.stateful.value, desired.value) || AnyOutdated(c.pods, cfg, desired.value)))
  }

  predicate ClaimStale(c: Option<Claim>, st: Storage) {
    c.None? || (DesiredClaim(st).Ok? && ClaimDiffers(c.value, DesiredClaim(st).value))
  }

  /** The operator looks after a claim under this spec. */
  predicate WantsClaim(spec: KodeSpec) { !StorageIsEmpty(spec.storage) && ManagesClaim(spec) }

  predicate Stale(g: Setting, c: Children, spec: KodeSpec, cfg: Config, p: Part) {
    match p
    case SecretPart => SecretStale(SecretAt(c, SecretName(g.name, spec)), cfg)
    case ServicePart => ServiceStale(c.service, cfg)
    case SetPart => SetStale(c, cfg, DesiredSet(g.lib, g.name, cfg))
    case ClaimPart => WantsClaim(spec) && ClaimStale(ClaimAt(c, ClaimName(g.name, spec)), spec.storage.value)
  }

  /** What applying cannot repair: outdated pods, and a claim whose access modes or class differ. */
  predicate Residue(g: Setting, c: Children, spec: KodeSpec, cfg: Config, p: Part) {
    match p
    case SecretPart => false
    case ServicePart => false
    case SetPart => DesiredSet(g.lib, g.name, cfg).Ok? && AnyOutdated(c.pods, cfg, DesiredSet(g.lib, g.name, cfg).value)
    case ClaimPart =>
      && WantsClaim(spec) && ClaimAt(c, ClaimName(g.name, spec)).Some? && DesiredClaim(spec.storage.value).Ok?
      && ImmutablePartDiffers(ClaimAt(c, ClaimName(g.name, spec)).value, DesiredClaim(spec.storage.value).value)
  }

  /** The configuration belongs to the spec, and the operator makes the secret itself. */
  predicate OwnSecret(spec: KodeSpec, cfg: Config) {
    cfg.spec == spec && cfg.credentials.existingSecret.None? && ExistingSecret(spec).None?
  }

  // ---- detect ----

  predicate FewerPods(a: seq<Pod>, b: seq<Pod>) { forall p :: p in b ==> p in a }

  lemma {:induction false} WithoutPodMeaning(pods: seq<Pod>, name: string)
    ensures forall p :: p in WithoutPod(pods, name) <==> p in pods && p.name != name
  {
    if pods != [] {
      WithoutPodMeaning(pods[1..], name);
    }
  }

  /** The deletion of outdated pods touches nothing but pods; with no failing call none is left. */
  lemma {:induction false} DeleteOutdatedMeaning(g: Setting, y: Sys, listed: seq<Pod>, cfg: Config,
                                                 desired: StatefulSet)
    requires Alone(g)
    ensures var z := DeleteOutdated(g, y, listed, cfg, desired);
            && z.w == y.w.(children := y.w.children.(pods := z.w.children.pods))
            && FewerPods(y.w.children.pods, z.w.children.pods)
            && (Quiet(g) ==> forall p :: p in listed && PodOutdated(p, cfg, desired) ==> p !in z.w.children.pods)
    decreases |listed|
  {
    hide PodOutdated, WithoutPod, Alone;
    if listed != [] {
      if PodOutdated(listed[0], cfg, desired) {
        EnterAlone(g, y);
        var z := Enter(g, y);
        var c := z.w.children;
        WithoutPodMeaning(c.pods, listed[0].name);
        assert y.w.owned + {} == y.w.owned;
        var next := if Up(g, y) then PutChildren(z, c.(pods := WithoutPod(c.pods, listed[0].name)), {}) else z;
        DeleteOutdatedMeaning(g, next, listed[1..], cfg, desired);
      } else {
        DeleteOutdatedMeaning(g, y, listed[1..], cfg, desired);
      }
    }
  }

  /** A pod that shares its name with no outdated one stays, whichever deletions fail. */
  lemma {:induction false} CurrentPodsStay(g: Setting, y: Sys, listed: seq<Pod>, cfg: Config, desired: StatefulSet, p: Pod)
    requires Alone(g) && p in y.w.children.pods && forall q :: q in listed && PodOutdated(q, cfg, desired) ==> q.name != p.name
    ensures p in DeleteOutdated(g, y, listed, cfg, desired).w.children.pods
    decreases |listed|
  {
    hide Alone, Enter, Up, PodOutdated;
    if listed != [] {
      assert forall q :: q in listed <==> q == listed[0] || q in listed[1..];
      if PodOutdated(listed[0], cfg, desired) {
        EnterAlone(g, y);
        var z := Enter(g, y);
        WithoutPodMeaning(z.w.children.pods, listed[0].name);
        var next := if Up(g, y) then PutChildren(z, z.w.children.(pods := WithoutPod(z.w.children.pods, listed[0].name)), {}) else z;
        CurrentPodsStay(g, next, listed[1..], cfg, desired, p);
      } else {
        CurrentPodsStay(g, y, listed[1..], cfg, desired, p);
      }
    }
  }

  lemma FewerPodsFewerOutdated(a: seq<Pod>, b: seq<Pod>, cfg: Config, desired: StatefulSet)
    requires FewerPods(a, b) && !AnyOutdated(a, cfg, desired)
    ensures !AnyOutdated(b, cfg, desired)
  {
    hide PodOutdated;
    forall i | 0 <= i < |b| ensures !PodOutdated(b[i], cfg, desired) {
      assert b[i] in a;
      var j :| 0 <= j < |a| && a[j] == b[i];
    }
  }

  lemma DetectSetMeaning(g: Setting, y: Sys, cfg: Config)
    requires Alone(g)
    ensures var r := DetectSet(g, y, cfg);
            && r.y.w == y.w.(children := y.w.children.(pods := r.y.w.children.pods))
            && FewerPods(y.w.children.pods, r.y.w.children.pods)
            && (r.out.Ok? ==> r.out.value == SetStale(y.w.children, cfg, DesiredSet(g.lib, g.name, cfg)))
            && (Quiet(g) && DesiredSet(g.lib, g.name, cfg).Ok? && y.w.children.stateful.Some? ==>
                  !AnyOutdated(r.y.w.children.pods, cfg, DesiredSet(g.lib, g.name, cfg).value))
            && (Quiet(g) && DesiredSet(g.lib, g.name, cfg).Ok? ==> r.out.Ok?)
            && (y.w.children.stateful.None? ==> r.y.w.children.pods == y.w.children.pods)
  {
    EnterAlone(g, y);
    EnterAlone(g, Enter(g, y));
    var v := Enter(g, Enter(g, y));
    hide Enter, Alone, DesiredSet, SetSpecDiffers, PodOutdated, DeleteOutdated;
    if DesiredSet(g.lib, g.name, cfg).Ok? {
      var desired := DesiredSet(g.lib, g.name, cfg).value;
      DeleteOutdatedMeaning(g, v, v.w.children.pods, cfg, desired);
    }
  }

  /** detectChanges reports exactly what is stale, and leaves everything but outdated pods. */
  lemma DetectMeaning(g: Setting, y: Sys, spec: KodeSpec, cfg: Config)
    requires Alone(g) && cfg.spec == spec
    ensures var r := DetectChanges(g, y, spec, cfg);
            && r.y.w == y.w.(children := y.w.children.(pods := r.y.w.children.pods))
            && FewerPods(y.w.children.pods, r.y.w.children.pods)
            && (r.out.Ok? ==> forall p :: p in r.out.value <==> Stale(g, y.w.children, spec, cfg, p))
  {
    hide Enter, Alone, DetectSet, SecretStale, ServiceStale, SetStale, ClaimDiffers, DesiredSet, SecretName, ClaimName;
    EnterAlone(g, y);
    var a := DetectSecret(g, y, spec, cfg);
    EnterAlone(g, a.y);
    var b := DetectService(g, a.y, cfg);
    DetectSetMeaning(g, b.y, cfg);
    var c := DetectSet(g, b.y, cfg);
    EnterAlone(g, c.y);
  }

  lemma DetectSucceeds(g: Setting, y: Sys, spec: KodeSpec, cfg: Config)
    requires Quiet(g) && cfg.spec == spec && DesiredSet(g.lib, g.name, cfg).Ok? && (WantsClaim(spec) ==> spec.storage.value.resources.Some?)
    ensures DetectChanges(g, y, spec, cfg).out.Ok?
    ensures y.w.children.stateful.Some? ==>
              !AnyOutdated(DetectChanges(g, y, spec, cfg).y.w.children.pods, cfg, DesiredSet(g.lib, g.name, cfg).value)
    ensures y.w.children.stateful.None? ==> DetectChanges(g, y, spec, cfg).y.w.children.pods == y.w.children.pods
  {
    hide Enter, Alone, DetectSet, SecretStale, ServiceStale, ClaimDiffers, DesiredSet, SecretName, ClaimName,
      AnyOutdated;
    EnterAlone(g, y);
    var a := DetectSecret(g, y, spec, cfg);
    EnterAlone(g, a.y);
    var b := DetectService(g, a.y, cfg);
    DetectSetMeaning(g, b.y, cfg);
    EnterAlone(g, DetectSet(g, b.y, cfg).y);
  }

  // ---- apply ----

  /** Staleness once `done` has been applied. */
  predicate After(g: Setting, c: Children, spec: KodeSpec, cfg: Config, done: set<Part>, q: Part) {
    if q in done then Residue(g, c, spec, cfg, q) else Stale(g, c, spec, cfg, q)
  }

  lemma EnsureClaimFixes(g: Setting, y: Sys, spec: KodeSpec, cfg: Config)
    requires Alone(g) && cfg.spec == spec
    ensures var r := EnsurePart(g, y, spec, cfg, ClaimPart);
            && (r.out.Bad? ==> r.y.w.children == y.w.children)
            && (r.out.Ok? ==>
                  && r.out.value == cfg
                  && r.y.w.children == y.w.children.(claims := r.y.w.children.claims)
                  && Stale(g, r.y.w.children, spec, cfg, ClaimPart) == Residue(g, y.w.children, spec, cfg, ClaimPart)
                  && Residue(g, r.y.w.children, spec, cfg, ClaimPart) == Residue(g, y.w.children, spec, cfg, ClaimPart))
  {
    EnterAlone(g, y);
    hide Enter, Alone, StorageIsEmpty, ClaimName;
  }

  lemma EnsureSecretFixes(g: Setting, y: Sys, spec: KodeSpec, cfg: Config)
    requires Alone(g) && OwnSecret(spec, cfg)
    ensures var r := EnsureSecret(g, y, spec, cfg);
            && (r.out.Bad? ==> r.y.w.children == y.w.children)
            && (r.out.Ok? ==>
                  && r.out.value == cfg
                  && r.y.w.children == y.w.children.(secrets := r.y.w.children.secrets)
                  && !SecretStale(SecretAt(r.y.w.children, SecretName(g.name, spec)), cfg))
  {
    EnterAlone(g, y);
    hide Enter, Alone;
  }

  lemma EnsuredIsFresh(s: Option<StatefulSet>, desired: StatefulSet)
    ensures !SetSpecDiffers(EnsuredSet(s, desired), desired)
  {
  }

  /** Ensuring a part makes it no longer stale, but for its residue, and leaves every other part as it was. */
  lemma EnsureFixes(g: Setting, y: Sys, spec: KodeSpec, cfg: Config, p: Part)
    requires Alone(g) && OwnSecret(spec, cfg)
    ensures var r := EnsurePart(g, y, spec, cfg, p);
            && r.y.w.children.pods == y.w.children.pods
            && (r.out.Bad? ==> r.y.w.children == y.w.children)
            && (r.out.Ok? ==> r.out.value == cfg)
            && (r.out.Ok? ==> forall q :: Stale(g, r.y.w.children, spec, cfg, q) == After(g, y.w.children, spec, cfg, {p}, q))
            && (r.out.Ok? ==> forall q :: Residue(g, r.y.w.children, spec, cfg, q) == Residue(g, y.w.children, spec, cfg, q))
  {
    hide Enter, Alone, DesiredSet, SecretName, ClaimName, SetSpecDiffers, AnyOutdated, StorageIsEmpty;
    EnterAlone(g, y);
    match p {
      case SecretPart =>
        EnsureSecretFixes(g, y, spec, cfg);
        hide EnsureSecret, SecretStale, ServiceStale, ClaimStale, EnsuredSet;
      case ServicePart =>
        hide SecretStale, ClaimStale;
      case SetPart =>
        var d := DesiredSet(g.lib, g.name, cfg);
        if d.Ok? { EnsuredIsFresh(y.w.children.stateful, d.value); }
        hide SecretStale, ServiceStale, ClaimStale, EnsuredSet;
      case ClaimPart =>
        EnsureClaimFixes(g, y, spec, cfg);
        hide EnsureClaim, SecretStale, ServiceStale;
    }
  }

  function Elements(ps: seq<Part>): set<Part> { set p | p in ps }

  /** An apply that stops, at the end or at the first failure, has applied the parts up to there. */
  lemma {:induction false} ApplyOutcome(g: Setting, y: Sys, spec: KodeSpec, cfg: Config, changes: set<Part>,
                                        order: seq<Part>) returns (j: nat)
    requires Alone(g) && OwnSecret(spec, cfg)
    requires forall a, b :: 0 <= a < b < |order| ==> order[a] != order[b]
    ensures var r := ApplyParts(g, y, spec, cfg, changes, order);
            && j <= |order|
            && r.y.w.children.pods == y.w.children.pods
            && (r.out.Ok? ==> j == |order| && r.out.value == cfg)
            && (r.out.Bad? ==> j < |order| && order[j] in changes)
            && forall q :: Stale(g, r.y.w.children, spec, cfg, q) == After(g, y.w.children, spec, cfg, Elements(order[..j]) * changes, q)
    decreases |order|
  {
    hide EnsurePart, Stale, Residue, OwnSecret, Alone;
    j := 0;
    if order != [] {
      var rest := order[1..];
      if order[0] !in changes {
        var i := ApplyOutcome(g, y, spec, cfg, changes, rest);
        j := i + 1;
        assert order[..j] == [order[0]] + rest[..i];
        assert Elements(order[..j]) * changes == Elements(rest[..i]) * changes;
      } else {
        EnsureFixes(g, y, spec, cfg, order[0]);
        var r := EnsurePart(g, y, spec, cfg, order[0]);
        if r.out.Ok? {
          var i := ApplyOutcome(g, r.y, spec, cfg, changes, rest);
          j := i + 1;
          assert order[..j] == [order[0]] + rest[..i];
          assert Elements(order[..j]) * changes == {order[0]} + Elements(rest[..i]) * changes;
        } else {
          assert Elements(order[..0]) * changes == {};
        }
      }
    }
  }

  // ---- the theorems ----

  /** Convergence: detect, apply, detect again. The second time only residues are reported, whichever calls
      failed on the way as long as the three steps got through. */
  lemma DetectAfterApply(g: Setting, y: Sys, spec: KodeSpec, cfg: Config)
    requires Alone(g) && OwnSecret(spec, cfg)
    ensures var d := DetectChanges(g, y, spec, cfg);
            d.out.Ok? ==>
              var a := ApplyConfiguration(g, d.y, spec, cfg, d.out.value);
              a.out.Ok? ==>
                var e := DetectChanges(g, a.y, spec, a.out.value);
                e.out.Ok? ==> forall p :: p in e.out.value <==> Residue(g, d.y.w.children, spec, cfg, p)
  {
    OwnConfig(spec, cfg);
    hide DetectChanges, ApplyParts, Alone, Stale, Residue, OwnSecret;
    var d := DetectChanges(g, y, spec, cfg);
    DetectMeaning(g, y, spec, cfg);
    if d.out.Ok? {
      var a := ApplyConfiguration(g, d.y, spec, cfg, d.out.value);
      var j := ApplyOutcome(g, d.y, spec, cfg, d.out.value, ORDER);
      if a.out.Ok? {
        DetectMeaning(g, a.y, spec, cfg);
        assert ORDER[..j] == ORDER;
        forall p ensures Stale(g, a.y.w.children, spec, cfg, p) == Residue(g, d.y.w.children, spec, cfg, p) {
          InOrder(p);
          NotStaleNoResidue(g, y.w.children, d.y.w.children, spec, cfg, p);
        }
      }
    }
  }

  lemma OwnConfig(spec: KodeSpec, cfg: Config)
    requires OwnSecret(spec, cfg)
    ensures cfg.spec == spec
  {
  }

  lemma InOrder(p: Part)
    ensures p in ORDER
  {
    assert ORDER[0] == SecretPart && ORDER[1] == ServicePart && ORDER[2] == SetPart && ORDER[3] == ClaimPart;
  }

  /** A part that was not reported is not stale once outdated pods are gone, nor has it a residue. */
  lemma NotStaleNoResidue(g: Setting, c: Children, d: Children, spec: KodeSpec, cfg: Config, p: Part)
    requires d == c.(pods := d.pods) && FewerPods(c.pods, d.pods)
    ensures !Stale(g, c, spec, cfg, p) ==> !Stale(g, d, spec, cfg, p) && !Residue(g, d, spec, cfg, p)
  {
    hide DesiredSet, SetSpecDiffers, AnyOutdated, SecretStale, ServiceStale;
    var s := DesiredSet(g.lib, g.name, cfg);
    if s.Ok? && !AnyOutdated(c.pods, cfg, s.value) {
      FewerPodsFewerOutdated(c.pods, d.pods, cfg, s.value);
    }
  }

  /** A claim that detection reports and that no update ever repairs. */
  predicate ClaimBlocked(g: Setting, c: Children, spec: KodeSpec) {
    && WantsClaim(spec) && ClaimAt(c, ClaimName(g.name, spec)).Some? && DesiredClaim(spec.storage.value).Ok?
    && ImmutablePartDiffers(ClaimAt(c, ClaimName(g.name, spec)).value, DesiredClaim(spec.storage.value).value)
  }

  /** Outdated pods that detection leaves alone, because it ends at the missing stateful set. */
  predicate PodsBlocked(g: Setting, c: Children, cfg: Config)
    requires DesiredSet(g.lib, g.name, cfg).Ok?
  {
    c.stateful.None? && AnyOutdated(c.pods, cfg, DesiredSet(g.lib, g.name, cfg).value)
  }

  /** What a second detection finds. */
  function Remaining(g: Setting, c: Children, spec: KodeSpec, cfg: Config): set<Part>
    requires DesiredSet(g.lib, g.name, cfg).Ok?
  {
    (if PodsBlocked(g, c, cfg) then {SetPart} else {}) + (if ClaimBlocked(g, c, spec) then {ClaimPart} else {})
  }

  lemma QuietIsAlone(g: Setting)
    requires Quiet(g)
    ensures Alone(g)
  {
  }

  lemma ApplyKeepsConfig(g: Setting, y: Sys, spec: KodeSpec, cfg: Config, changes: set<Part>)
    requires Alone(g) && OwnSecret(spec, cfg)
    ensures var r := ApplyConfiguration(g, y, spec, cfg, changes);
            r.y.w.children.pods == y.w.children.pods && (r.out.Ok? ==> r.out.value == cfg)
  {
    hide Alone, OwnSecret, EnsurePart;
    var j := ApplyOutcome(g, y, spec, cfg, changes, ORDER);
  }

  lemma SecondDetect(g: Setting, y: Sys, spec: KodeSpec, cfg: Config)
    requires Quiet(g) && OwnSecret(spec, cfg)
    requires DesiredSet(g.lib, g.name, cfg).Ok? && (WantsClaim(spec) ==> spec.storage.value.resources.Some?)
    ensures var d := DetectChanges(g, y, spec, cfg);
            d.out.Ok? ==>
              var a := ApplyConfiguration(g, d.y, spec, cfg, d.out.value);
              a.out.Ok? ==>
                DetectChanges(g, a.y, spec, cfg).out == Ok(Remaining(g, y.w.children, spec, cfg))
  {
    hide *;
    var d := DetectChanges(g, y, spec, cfg);
    if d.out.Ok? && ApplyConfiguration(g, d.y, spec, cfg, d.out.value).out.Ok? {
      var a := ApplyConfiguration(g, d.y, spec, cfg, d.out.value);
      OwnConfig(spec, cfg);
      QuietIsAlone(g);
      ApplyKeepsConfig(g, d.y, spec, cfg, d.out.value);
      DetectSucceeds(g, y, spec, cfg);
      DetectMeaning(g, y, spec, cfg);
      DetectAfterApply(g, y, spec, cfg);
      DetectSucceeds(g, a.y, spec, cfg);
      var e := DetectChanges(g, a.y, spec, cfg);
      forall p ensures p in e.out.value <==> p in Remaining(g, y.w.children, spec, cfg) {
        OnlyTheseRemain(g, y.w.children, d.y.w.children, spec, cfg, p);
      }
      assert e.out.value == Remaining(g, y.w.children, spec, cfg);
    }
  }

  lemma {:induction false} ApplySucceeds(g: Setting, y: Sys, spec: KodeSpec, cfg: Config, changes: set<Part>, order: seq<Part>)
    requires Quiet(g) && OwnSecret(spec, cfg)
    requires DesiredSet(g.lib, g.name, cfg).Ok? && (WantsClaim(spec) ==> spec.storage.value.resources.Some?)
    ensures ApplyParts(g, y, spec, cfg, changes, order).out.Ok?
    decreases |order|
  {
    hide OwnSecret, DesiredSet, WantsClaim, EnsurePart;
    if order != [] {
      if order[0] in changes {
        QuietIsAlone(g);
        EnsureFixes(g, y, spec, cfg, order[0]) by { hide Quiet; }
        EnsureSucceeds(g, y, spec, cfg, order[0]);
        hide Quiet;
        ApplySucceeds(g, EnsurePart(g, y, spec, cfg, order[0]).y, spec, cfg, changes, order[1..]);
      } else {
        hide Quiet;
        ApplySucceeds(g, y, spec, cfg, changes, order[1..]);
      }
    }
  }

  lemma ConfigurationApplies(g: Setting, y: Sys, spec: KodeSpec, cfg: Config, changes: set<Part>)
    requires Quiet(g) && OwnSecret(spec, cfg)
    requires DesiredSet(g.lib, g.name, cfg).Ok? && (WantsClaim(spec) ==> spec.storage.value.resources.Some?)
    ensures ApplyConfiguration(g, y, spec, cfg, changes).out.Ok?
  {
    hide Quiet, OwnSecret, DesiredSet, WantsClaim, ApplyParts;
    ApplySucceeds(g, y, spec, cfg, changes, ORDER);
  }

  lemma EnsureSucceeds(g: Setting, y: Sys, spec: KodeSpec, cfg: Config, p: Part)
    requires Quiet(g) && OwnSecret(spec, cfg)
    requires DesiredSet(g.lib, g.name, cfg).Ok? && (WantsClaim(spec) ==> spec.storage.value.resources.Some?)
    ensures EnsurePart(g, y, spec, cfg, p).out.Ok?
  {
    EnterAlone(g, y);
    hide Enter, DesiredSet, EnsuredSecret, EnsuredSet, EnsuredClaim, SecretName, ClaimName, StorageIsEmpty;
  }

  /** With no failing call: detection and apply succeed, and a second detection finds nothing but outdated
      pods that were there without a stateful set, and an existing claim that differs in access modes or class. */
  lemma ApplyReachesFixpoint(g: Setting, y: Sys, spec: KodeSpec, cfg: Config)
    requires Quiet(g) && OwnSecret(spec, cfg)
    requires DesiredSet(g.lib, g.name, cfg).Ok? && (WantsClaim(spec) ==> spec.storage.value.resources.Some?)
    ensures var d := DetectChanges(g, y, spec, cfg);
            && d.out.Ok?
            && var a := ApplyConfiguration(g, d.y, spec, cfg, d.out.value);
            && a.out.Ok?
            && DetectChanges(g, a.y, spec, cfg).out == Ok(Remaining(g, y.w.children, spec, cfg))
  {
    OwnConfig(spec, cfg);
    hide *;
    DetectSucceeds(g, y, spec, cfg);
    var d := DetectChanges(g, y, spec, cfg);
    ConfigurationApplies(g, d.y, spec, cfg, d.out.value);
    SecondDetect(g, y, spec, cfg);
  }

  lemma OnlyTheseRemain(g: Setting, c: Children, d: Children, spec: KodeSpec, cfg: Config, p: Part)
    requires d == c.(pods := d.pods) && DesiredSet(g.lib, g.name, cfg).Ok?
    requires c.stateful.Some? ==> !AnyOutdated(d.pods, cfg, DesiredSet(g.lib, g.name, cfg).value)
    requires c.stateful.None? ==> d.pods == c.pods
    ensures Residue(g, d, spec, cfg, p) <==> p in Remaining(g, c, spec, cfg)
  {
    hide DesiredSet, AnyOutdated;
  }

  /** An apply that failed can be resumed: with no residues, the next detection reports exactly the stale
      parts from the one that failed on, in the fixed order; if the apply had written any part before it
      failed, that is strictly less than before. */
  lemma ApplyIsResumable(g: Setting, y: Sys, spec: KodeSpec, cfg: Config) returns (j: nat)
    requires Alone(g) && OwnSecret(spec, cfg)
    ensures var d := DetectChanges(g, y, spec, cfg);
            d.out.Ok? && (forall p :: !Residue(g, d.y.w.children, spec, cfg, p)) ==>
              var a := ApplyConfiguration(g, d.y, spec, cfg, d.out.value);
              a.out.Bad? ==>
                && j < |ORDER| && ORDER[j] in d.out.value
                && var e := DetectChanges(g, a.y, spec, cfg);
                e.out.Ok? ==>
                  && (forall p :: p in e.out.value <==> p in ORDER[j..] && Stale(g, d.y.w.children, spec, cfg, p))
                  && e.out.value <= d.out.value
                  && e.out.value !! Elements(ORDER[..j])
                  && (Elements(ORDER[..j]) * d.out.value != {} ==> e.out.value < d.out.value)
  {
    OwnConfig(spec, cfg);
    hide DetectChanges, ApplyParts, Alone, Stale, Residue, OwnSecret;
    var d := DetectChanges(g, y, spec, cfg);
    j := 0;
    if d.out.Ok? && forall p :: !Residue(g, d.y.w.children, spec, cfg, p) {
      DetectMeaning(g, y, spec, cfg);
      var a := ApplyConfiguration(g, d.y, spec, cfg, d.out.value);
      j := ApplyOutcome(g, d.y, spec, cfg, d.out.value, ORDER);
      if a.out.Bad? && DetectChanges(g, a.y, spec, cfg).out.Ok? {
        DetectMeaning(g, a.y, spec, cfg);
        Resumes(g, y.w.children, d.y.w.children, a.y.w.children, spec, cfg, d.out.value, DetectChanges(g, a.y, spec, cfg).out.value, j);
      }
    }
  }

  lemma Resumes(g: Setting, c: Children, d: Children, a: Children, spec: KodeSpec, cfg: Config, changes: set<Part>,
                again: set<Part>, j: nat)
    requires j < |ORDER| && d == c.(pods := d.pods) && FewerPods(c.pods, d.pods)
    requires forall p :: !Residue(g, d, spec, cfg, p)
    requires forall p :: p in changes <==> Stale(g, c, spec, cfg, p)
    requires forall p :: Stale(g, a, spec, cfg, p) == After(g, d, spec, cfg, Elements(ORDER[..j]) * changes, p)
    requires forall p :: p in again <==> Stale(g, a, spec, cfg, p)
    ensures forall p :: p in again <==> p in ORDER[j..] && Stale(g, d, spec, cfg, p)
    ensures again <= changes && again !! Elements(ORDER[..j])
  {
    hide Stale, Residue, FewerPods;
    forall p ensures p in again <==> p in ORDER[j..] && Stale(g, d, spec, cfg, p)
             ensures p in again ==> p in changes && p !in Elements(ORDER[..j])
    {
      InOrder(p);
      assert ORDER == ORDER[..j] + ORDER[j..];
      SplitOrder(p, j);
      NotStaleNoResidue(g, c, d, spec, cfg, p);
    }
  }

  lemma SplitOrder(p: Part, j: nat)
    requires j <= |ORDER|
    ensures p in ORDER[j..] <==> p !in ORDER[..j]
  {
    InOrder(p);
    assert forall a, b :: 0 <= a < b < |ORDER| ==> ORDER[a] != ORDER[b];
    assert forall i :: 0 <= i < |ORDER| ==> (ORDER[i] in ORDER[..j] <==> i < j);
    assert forall i :: j <= i < |ORDER| ==> ORDER[j..][i - j] == ORDER[i];
  }
}

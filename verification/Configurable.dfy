/** When Configuring succeeds, on the fields of the children there were before: exactly when type and resources are
    given, and nothing is wrong that the operator never repairs. */
module Configurable {
  import opened KodeTypes
  import opened Cluster
  import opened Handlers
  import opened Updating
  import A = Agreement
  import D = Desired
  import F = Fields
  import Q = QuietPhases
  import R = Resources
  import T = Templates
  import V = Convergence

  // ---- the apply, part by part ----

  function SecretsIn(g: Setting, c: Children, spec: KodeSpec, cfg: D.Config, changes: set<R.Part>): map<string, Secret> {
    var n := D.SecretName(g.name, spec);
    if R.SecretPart in changes then c.secrets[n := D.EnsuredSecret(SecretAt(c, n), cfg)] else c.secrets
  }

  function ServiceIn(c: Children, cfg: D.Config, changes: set<R.Part>): Option<Service> {
    if R.ServicePart in changes then Some(D.DesiredService(cfg)) else c.service
  }

  function SetIn(g: Setting, c: Children, cfg: D.Config, changes: set<R.Part>): Option<StatefulSet> {
    var s := D.DesiredSet(g.lib, g.name, cfg);
    if R.SetPart in changes && s.Ok? then Some(D.EnsuredSet(c.stateful, s.value)) else c.stateful
  }

  function ClaimsIn(g: Setting, c: Children, spec: KodeSpec, changes: set<R.Part>): map<string, Claim> {
    var n := D.ClaimName(g.name, spec);
    if R.ClaimPart in changes && V.WantsClaim(spec) && D.DesiredClaim(spec.storage.value).Ok?
    then c.claims[n := D.EnsuredClaim(ClaimAt(c, n), D.DesiredClaim(spec.storage.value).value)] else c.claims
  }

  /** With a secret of the operator's own, an apply is these four, one independent of the other. */
  lemma AppliedIs(g: Setting, c: Children, spec: KodeSpec, cfg: D.Config, changes: set<R.Part>)
    requires V.OwnSecret(spec, cfg)
    ensures var o := ApplyIn(g, Applied(c, cfg), spec, changes, R.ORDER);
            && (o.Ok? <==> (R.SetPart in changes ==> D.DesiredSet(g.lib, g.name, cfg).Ok?)
                           && (R.ClaimPart in changes && V.WantsClaim(spec) ==> D.DesiredClaim(spec.storage.value).Ok?))
            && (o.Ok? ==> o.value == Applied(c.(secrets := SecretsIn(g, c, spec, cfg, changes), service := ServiceIn(c, cfg, changes),
                                                stateful := SetIn(g, c, cfg, changes), claims := ClaimsIn(g, c, spec, changes)), cfg))
  {
    hide D.DesiredSet, D.DesiredService, D.EnsuredSecret, D.EnsuredSet, D.EnsuredClaim, D.DesiredClaim, D.SecretName, D.ClaimName, D.StorageIsEmpty;
    var o3: seq<R.Part> := [R.ClaimPart];
    var o2: seq<R.Part> := [R.SetPart, R.ClaimPart];
    var o1: seq<R.Part> := [R.ServicePart, R.SetPart, R.ClaimPart];
    assert R.ORDER[1..] == o1 && o1[1..] == o2 && o2[1..] == o3 && o3[1..] == [];
    var a0 := Applied(c, cfg);
    var a1 := a0.(c := c.(secrets := SecretsIn(g, c, spec, cfg, changes)));
    var a2 := a1.(c := a1.c.(service := ServiceIn(c, cfg, changes)));
    var a3 := a2.(c := a2.c.(stateful := SetIn(g, c, cfg, changes)));
    ApplyFrom(g, a0, spec, changes, R.ORDER);
    ApplyFrom(g, a1, spec, changes, o1);
    ApplyFrom(g, a2, spec, changes, o2);
    ApplyFrom(g, a3, spec, changes, o3);
    hide ApplyIn;
    assert ApplyIn(g, a0, spec, changes, R.ORDER) == ApplyIn(g, a1, spec, changes, o1);
    assert ApplyIn(g, a1, spec, changes, o1) == ApplyIn(g, a2, spec, changes, o2);
  }

  lemma ApplyFrom(g: Setting, a: Applied, spec: KodeSpec, changes: set<R.Part>, order: seq<R.Part>)
    requires order != []
    ensures ApplyIn(g, a, spec, changes, order) ==
            if order[0] !in changes then ApplyIn(g, a, spec, changes, order[1..])
            else
              var e := EnsureIn(g, a, spec, order[0]);
              if e.Bad? then Bad(e.err) else ApplyIn(g, e.value, spec, changes, order[1..])
    ensures ApplyIn(g, a, spec, changes, []) == Ok(a)
  {
    hide EnsureIn;
  }

  // ---- what the apply repairs, and what it leaves ----

  lemma SecretSide(g: Setting, c: Children, spec: KodeSpec, cfg: D.Config)
    requires V.OwnSecret(spec, cfg)
    ensures var n := D.SecretName(g.name, spec);
            var after := SecretsIn(g, c, spec, cfg, StaleParts(g, c, spec, cfg));
            n in after && (D.SecretValid(after[n], spec, cfg) <==> (n in c.secrets ==> D.Carries(c.secrets[n].labels, cfg.labels)))
  {
    hide D.SecretName;
    assert R.SecretPart in StaleParts(g, c, spec, cfg) <==> V.Stale(g, c, spec, cfg, R.SecretPart);
  }

  lemma ServiceSide(g: Setting, c: Children, spec: KodeSpec, cfg: D.Config)
    ensures var after := ServiceIn(c, cfg, StaleParts(g, c, spec, cfg)); after.Some? && D.ServiceValid(after.value, cfg)
  {
    assert R.ServicePart in StaleParts(g, c, spec, cfg) <==> V.Stale(g, c, spec, cfg, R.ServicePart);
    var after := ServiceIn(c, cfg, StaleParts(g, c, spec, cfg)).value;
    assert after.ports[0].port == cfg.template.spec.port;
  }

  /** What a stateful set that is not stale needs to be valid. */
  predicate KeptSetValid(s: StatefulSet, spec: KodeSpec) {
    && s.replicas == 1 && |s.containers| > 0
    && (spec.storage.Some? ==> exists i :: 0 <= i < |s.containers[0].mounts| && s.containers[0].mounts[i].name == "kode-storage")
  }

  lemma SetSide(g: Setting, c: Children, spec: KodeSpec, cfg: D.Config)
    requires cfg.spec == spec && D.DesiredSet(g.lib, g.name, cfg).Ok?
    ensures var after := SetIn(g, c, cfg, StaleParts(g, c, spec, cfg));
            && after.Some?
            && (D.SetValid(after.value, cfg) <==> V.Stale(g, c, spec, cfg, R.SetPart) || KeptSetValid(c.stateful.value, spec))
  {
    assert R.SetPart in StaleParts(g, c, spec, cfg) <==> V.Stale(g, c, spec, cfg, R.SetPart);
    DesiredIsValid(g, cfg);
    hide D.DesiredSet, D.AnyOutdated;
    if !V.Stale(g, c, spec, cfg, R.SetPart) {
      var d := D.DesiredSet(g.lib, g.name, cfg).value;
      var s := c.stateful.value;
      assert !D.ImagesDiffer(D.ImagesOf(s.containers), d.containers);
      if |s.containers| > 0 {
        assert D.ImagesOf(s.containers)[0] == s.containers[0].image;
      }
    }
  }

  lemma DesiredIsValid(g: Setting, cfg: D.Config)
    requires D.DesiredSet(g.lib, g.name, cfg).Ok?
    ensures var d := D.DesiredSet(g.lib, g.name, cfg).value;
            D.SetValid(d, cfg) && |d.containers| > 0 && d.containers[0].image == cfg.template.spec.image
  {
    var d := D.DesiredSet(g.lib, g.name, cfg).value;
    hide D.PluginContainers, D.MainEnv;
    assert d.containers[0] == D.MainContainer(g.lib, cfg);
    if cfg.spec.storage.Some? {
      assert d.containers[0].mounts[0].name == D.STORAGE_VOLUME;
    }
  }

  /** What the claim must be like if there is one, or, for storage given but empty, that there is one. */
  predicate ClaimFits(g: Setting, c: Children, spec: KodeSpec) {
    F.Manages(spec) ==>
      var st := spec.storage.value;
      var m := g.name + "-pvc";
      if !F.GivesStorage(spec) then m in c.claims && |c.claims[m].accessModes| == 0 && (st.resources.Some? ==> c.claims[m].resources.storage == 0)
      else
        m in c.claims ==>
          && (st.storageClass.Some? ==> c.claims[m].storageClass == st.storageClass)
          && |c.claims[m].accessModes| == |st.accessModes| && forall a :: a in st.accessModes ==> a in c.claims[m].accessModes
  }

  lemma ClaimSide(g: Setting, c: Children, spec: KodeSpec, cfg: D.Config)
    requires cfg.spec == spec && (V.WantsClaim(spec) ==> spec.storage.value.resources.Some?)
    ensures var after := c.(claims := ClaimsIn(g, c, spec, StaleParts(g, c, spec, cfg)));
            A.ClaimValid(g, after, spec) <==> ClaimFits(g, c, spec)
  {
    assert R.ClaimPart in StaleParts(g, c, spec, cfg) <==> V.Stale(g, c, spec, cfg, R.ClaimPart);
    F.StorageIs(spec);
    if F.Manages(spec) {
      assert D.ClaimName(g.name, spec) == g.name + "-pvc";
      hide D.ClaimName;
    }
  }

  // ---- the exact condition ----

  /** Nothing stands in the way: a known type, resources for the claim that is wanted, no secret with another
      template's labels, no kept stateful set of another shape, no claim of another kind. */
  ghost predicate InOrder(g: Setting, c: Children, spec: KodeSpec, t: TemplateSpec) {
    && t.kind != OtherType
    && (F.Manages(spec) && F.GivesStorage(spec) ==> spec.storage.value.resources.Some?)
    && (g.name + "-auth" in c.secrets ==> F.Labelled(c.secrets[g.name + "-auth"].labels, g.name, spec.templateRef.name))
    && (T.Visible(g.store, spec.templateRef).Ok? && c.stateful.Some? && !V.Stale(g, c, spec, A.ConfigOf(g, spec), R.SetPart) ==>
          KeptSetValid(c.stateful.value, spec))
    && ClaimFits(g, c, spec)
  }

  lemma Finds(g: Setting, c: Children, spec: KodeSpec, cfg: D.Config)
    requires cfg.spec == spec
    ensures D.DesiredSet(g.lib, g.name, cfg).Ok? <==> cfg.template.spec.kind != OtherType
    ensures Detectable(g, c, spec, cfg) && Q.AppliedAll(g, c, spec, cfg).Ok? && V.OwnSecret(spec, cfg) ==>
              cfg.template.spec.kind != OtherType && (V.WantsClaim(spec) ==> spec.storage.value.resources.Some?)
    ensures cfg.template.spec.kind != OtherType && (V.WantsClaim(spec) ==> spec.storage.value.resources.Some?) && V.OwnSecret(spec, cfg) ==>
              Detectable(g, c, spec, cfg) && Q.AppliedAll(g, c, spec, cfg).Ok?
  {
    assert D.DesiredSet(g.lib, g.name, cfg).Ok? <==> cfg.template.spec.kind != OtherType by { hide D.PodTemplateOf; }
    hide D.DesiredSet, D.StorageIsEmpty, ApplyIn, Detected, V.SetStale;
    if V.OwnSecret(spec, cfg) {
      AppliedIs(g, Detected(g, c, cfg), spec, cfg, StaleParts(g, c, spec, cfg));
      NoSetIsStale(g, c, spec, cfg);
      assert R.ClaimPart in StaleParts(g, c, spec, cfg) <==> V.Stale(g, c, spec, cfg, R.ClaimPart);
    }
  }

  lemma NoSetIsStale(g: Setting, c: Children, spec: KodeSpec, cfg: D.Config)
    ensures c.stateful.None? ==> R.SetPart in StaleParts(g, c, spec, cfg)
  {
    assert R.SetPart in StaleParts(g, c, spec, cfg) <==> V.Stale(g, c, spec, cfg, R.SetPart);
  }

  lemma DetectedIs(g: Setting, c: Children, cfg: D.Config)
    ensures Detected(g, c, cfg) == c.(pods := Detected(g, c, cfg).pods)
  {
    hide PodsLeft, D.DesiredSet;
  }

  /** Validity after the apply, part by part, from the children before it. */
  lemma ValidAfter(g: Setting, c: Children, spec: KodeSpec, cfg: D.Config)
    requires V.OwnSecret(spec, cfg) && Q.AppliedAll(g, c, spec, cfg).Ok?
    requires cfg.template.spec.kind != OtherType && (V.WantsClaim(spec) ==> spec.storage.value.resources.Some?)
    ensures var o := Q.AppliedAll(g, c, spec, cfg).value;
            var n := D.SecretName(g.name, spec);
            A.ValidNow(g, o.c, spec, o.cfg) <==>
              && (n in c.secrets ==> D.Carries(c.secrets[n].labels, cfg.labels))
              && (V.Stale(g, c, spec, cfg, R.SetPart) || KeptSetValid(c.stateful.value, spec))
              && ClaimFits(g, c, spec)
  {
    hide ApplyIn, Detected, StaleParts, D.DesiredSet, D.SecretValid, D.ServiceValid, D.SetValid, D.ValidateClaim, D.Carries, KeptSetValid, ClaimFits,
      SecretsIn, ServiceIn, SetIn, ClaimsIn, D.SecretName, D.ClaimName, D.StorageIsEmpty, V.Stale, A.ClaimValid;
    Finds(g, c, spec, cfg);
    var d := Detected(g, c, cfg);
    var changes := StaleParts(g, c, spec, cfg);
    DetectedIs(g, c, cfg);
    AppliedIs(g, d, spec, cfg, changes);
    SameIn(g, c, d, spec, cfg, changes);
    SecretSide(g, c, spec, cfg);
    ServiceSide(g, c, spec, cfg);
    SetSide(g, c, spec, cfg);
    ClaimSide(g, c, spec, cfg);
    SameClaim(g, Q.AppliedAll(g, c, spec, cfg).value.c, c.(claims := ClaimsIn(g, c, spec, changes)), spec);
  }

  lemma SameClaim(g: Setting, c: Children, d: Children, spec: KodeSpec)
    requires c.claims == d.claims
    ensures A.ClaimValid(g, c, spec) <==> A.ClaimValid(g, d, spec)
  {
  }

  lemma SameIn(g: Setting, c: Children, d: Children, spec: KodeSpec, cfg: D.Config, changes: set<R.Part>)
    requires d == c.(pods := d.pods)
    ensures SecretsIn(g, d, spec, cfg, changes) == SecretsIn(g, c, spec, cfg, changes) && ServiceIn(d, cfg, changes) == ServiceIn(c, cfg, changes)
    ensures SetIn(g, d, cfg, changes) == SetIn(g, c, cfg, changes) && ClaimsIn(g, d, spec, changes) == ClaimsIn(g, c, spec, changes)
  {
    hide D.DesiredSet, D.EnsuredSecret, D.EnsuredSet, D.EnsuredClaim, D.DesiredClaim, D.SecretName, D.ClaimName, D.StorageIsEmpty, D.DesiredService;
  }

  /** The theorem: with a secret of the operator's own, Configuring succeeds if and only if nothing stands in the way. */
  lemma ConfigurableExactly(g: Setting, c: Children, spec: KodeSpec)
    requires T.Visible(g.store, spec.templateRef).Ok? && D.ExistingSecret(spec).None?
    ensures Q.Configurable(g, c, spec, A.ConfigOf(g, spec)) <==> InOrder(g, c, spec, T.Visible(g.store, spec.templateRef).value.spec)
  {
    var cfg := A.ConfigOf(g, spec);
    OwnConfig(g, spec);
    hide T.Visible, Detectable, ApplyIn, Detected, StaleParts, D.DesiredSet, D.StorageIsEmpty, F.GivesStorage, V.Stale, A.ValidNow,
      KeptSetValid, ClaimFits, D.Carries,
      F.Labelled, A.ConfigOf, V.OwnSecret;
    Finds(g, c, spec, cfg);
    if cfg.template.spec.kind != OtherType && (V.WantsClaim(spec) ==> spec.storage.value.resources.Some?) {
      ValidAfter(g, c, spec, cfg);
      if g.name + "-auth" in c.secrets { F.LabelsAre(g, spec, c.secrets[g.name + "-auth"].labels); }
      NoSetStale(g, c, spec, cfg);
    }
  }

  lemma NoSetStale(g: Setting, c: Children, spec: KodeSpec, cfg: D.Config)
    ensures c.stateful.None? ==> V.Stale(g, c, spec, cfg, R.SetPart)
  {
  }

  lemma OwnConfig(g: Setting, spec: KodeSpec)
    requires T.Visible(g.store, spec.templateRef).Ok? && D.ExistingSecret(spec).None?
    ensures var cfg := A.ConfigOf(g, spec);
            V.OwnSecret(spec, cfg) && cfg.template == T.Visible(g.store, spec.templateRef).value && cfg.spec == spec
    ensures D.SecretName(g.name, spec) == g.name + "-auth" && (V.WantsClaim(spec) <==> F.Manages(spec) && F.GivesStorage(spec))
  {
    hide T.Visible, D.CreateLabels, D.StorageIsEmpty, F.GivesStorage;
    F.StorageIs(spec);
  }

  /** An instance: storage that is given but empty, and no claim. The Kode stays Configuring, all three conditions
      False, with the error reported, and still without a claim: the next reconcile finds the same. */
  lemma EmptyStorageStaysConfiguring(g: Setting, y: Sys)
    requires Quiet(g) && Q.Quietable(y.w) && y.w.kode.value.status.phase == Configuring
    requires var spec := y.w.kode.value.spec;
             && D.ExistingSecret(spec).None? && F.Manages(spec) && !F.GivesStorage(spec)
             && T.Visible(g.store, spec.templateRef).Ok? && T.Visible(g.store, spec.templateRef).value.spec.kind != OtherType
    requires g.name + "-pvc" !in y.w.children.claims
    ensures var d := Reconcile(g, y);
            && d.err.Some? && d.y.w.kode.Some?
            && var s := d.y.w.kode.value.status;
            s.phase == Configuring && Q.Shows(s, False, False, False) && s.lastError == d.err
  {
    var spec := y.w.kode.value.spec;
    var cfg := A.ConfigOf(g, spec);
    OwnConfig(g, spec);
    assert !ClaimFits(g, y.w.children, spec) && D.ClaimName(g.name, spec) == g.name + "-pvc";
    hide Quiet, Reconcile, T.Visible, Detectable, ApplyIn, Detected, StaleParts, D.DesiredSet, D.StorageIsEmpty, F.GivesStorage, V.Stale,
      A.ValidNow, KeptSetValid,
      ClaimFits, D.Carries, F.Labelled, A.ConfigOf, V.OwnSecret, D.ClaimName, SecretsIn, ServiceIn, SetIn, Q.Shows;
    ConfigurableExactly(g, y.w.children, spec);
    Finds(g, y.w.children, spec, cfg);
    AppliedIs(g, Detected(g, y.w.children, cfg), spec, cfg, StaleParts(g, y.w.children, spec, cfg));
    DetectedIs(g, y.w.children, cfg);
    Q.ConfiguringExactly(g, y);
  }

  // ---- what the apply leaves alone, and whose credentials it uses ----

  /** An apply leaves what is not its own: pods, other secrets and claims; and of its own children what the
      environment reports or the user may have changed: ready replicas, a claim's binding, modes and class, the
      labels of a secret. A claim that is wanted has the size asked for afterwards. */
  lemma ApplyLeaves(g: Setting, c: Children, spec: KodeSpec, cfg: D.Config, changes: set<R.Part>)
    requires V.OwnSecret(spec, cfg) && ApplyIn(g, Applied(c, cfg), spec, changes, R.ORDER).Ok?
    ensures var d := ApplyIn(g, Applied(c, cfg), spec, changes, R.ORDER).value.c;
            && d.pods == c.pods && d.terminating == c.terminating
            && (forall n :: n != D.SecretName(g.name, spec) ==> SecretAt(d, n) == SecretAt(c, n))
            && (forall n :: n in c.secrets ==> n in d.secrets && d.secrets[n].labels == c.secrets[n].labels)
            && (forall n :: n != D.ClaimName(g.name, spec) ==> ClaimAt(d, n) == ClaimAt(c, n))
            && (forall n :: n in c.claims ==> n in d.claims && d.claims[n] == c.claims[n].(resources := d.claims[n].resources))
            && (c.stateful.Some? ==> d.stateful.Some? && d.stateful.value.readyReplicas == c.stateful.value.readyReplicas)
            && (V.WantsClaim(spec) && R.ClaimPart in changes && spec.storage.value.resources.Some? ==>
                  var n := D.ClaimName(g.name, spec);
                  n in d.claims && d.claims[n].resources.storage == spec.storage.value.resources.value.storage)
  {
    hide ApplyIn, D.SecretName, D.ClaimName, D.StorageIsEmpty, D.PodTemplateOf;
    AppliedIs(g, c, spec, cfg, changes);
  }

  /** With an existing secret the apply fails without it or without a username in it; otherwise the user that a
      stateful set made by it runs as is the secret's. */
  lemma SecretsUserRuns(g: Setting, c: Children, spec: KodeSpec)
    requires T.Visible(g.store, spec.templateRef).Ok? && D.ExistingSecret(spec).Some?
    requires var cfg := A.ConfigOf(g, spec); V.Stale(g, c, spec, cfg, R.SetPart) && Q.AppliedAll(g, c, spec, cfg).Ok?
    ensures var n := D.ExistingSecret(spec).value;
            var o := Q.AppliedAll(g, c, spec, A.ConfigOf(g, spec)).value;
            var t := T.Visible(g.store, spec.templateRef).value.spec;
            && n in c.secrets && Username in c.secrets[n].data && o.c.secrets == c.secrets
            && o.c.stateful.Some? && |o.c.stateful.value.containers| > 0
            && exists creds: Credentials :: creds.username == c.secrets[n].data[Username]
                                            && F.EnvIs(g.lib, o.c.stateful.value.containers[0].env, spec, t, creds)
  {
    var cfg := A.ConfigOf(g, spec);
    var n := D.ExistingSecret(spec).value;
    UsersConfig(g, spec);
    var changes := StaleParts(g, c, spec, cfg);
    var d := Detected(g, c, cfg);
    DetectedIs(g, c, cfg);
    assert R.SetPart in changes;
    assert R.SecretPart in changes <==> V.Stale(g, c, spec, cfg, R.SecretPart) by { hide D.SecretStale; }
    hide T.Visible, ApplyIn, Detected, StaleParts, V.Stale, D.DesiredSet, F.EnvIs, A.ConfigOf, D.StorageIsEmpty;
    LoadedIs(g, Applied(d, cfg), spec, changes);
    var used := Used(g, Applied(d, cfg), spec, changes);
    F.MainEnvIs(g.lib, used);
    MadeOf(g, d, used);
    if R.SecretPart !in changes { NotStaleData(g, c, spec, cfg); }
  }

  lemma UsersConfig(g: Setting, spec: KodeSpec)
    requires T.Visible(g.store, spec.templateRef).Ok? && D.ExistingSecret(spec).Some?
    ensures var cfg := A.ConfigOf(g, spec);
            && cfg.spec == spec && cfg.template == T.Visible(g.store, spec.templateRef).value && cfg.credentials.existingSecret == D.ExistingSecret(spec)
            && D.SecretName(g.name, spec) == D.ExistingSecret(spec).value
  {
    hide T.Visible, D.CreateLabels;
  }

  /** The configuration with which the later parts are applied. */
  function Used(g: Setting, a: Applied, spec: KodeSpec, changes: set<R.Part>): D.Config {
    var s := SecretAt(a.c, D.SecretName(g.name, spec));
    if R.SecretPart in changes && s.Some? && D.LoadCredentials(s.value, a.cfg.credentials).Ok?
    then a.cfg.(credentials := D.LoadCredentials(s.value, a.cfg.credentials).value) else a.cfg
  }

  lemma LoadedIs(g: Setting, a: Applied, spec: KodeSpec, changes: set<R.Part>)
    requires a.cfg.credentials.existingSecret.Some? && R.SetPart in changes && ApplyIn(g, a, spec, changes, R.ORDER).Ok?
    ensures var o := ApplyIn(g, a, spec, changes, R.ORDER).value;
            var used := Used(g, a, spec, changes);
            && D.DesiredSet(g.lib, g.name, used).Ok?
            && o.c.stateful == Some(D.EnsuredSet(a.c.stateful, D.DesiredSet(g.lib, g.name, used).value)) && o.c.secrets == a.c.secrets
            && (R.SecretPart in changes ==>
                  SecretAt(a.c, D.SecretName(g.name, spec)).Some? && D.LoadCredentials(SecretAt(a.c, D.SecretName(g.name, spec)).value, a.cfg.credentials).Ok?)
  {
    hide D.DesiredSet, D.DesiredService, D.EnsuredSecret, D.EnsuredSet, D.EnsuredClaim, D.DesiredClaim, D.SecretName, D.ClaimName, D.StorageIsEmpty,
      D.LoadCredentials;
    var o3: seq<R.Part> := [R.ClaimPart];
    var o2: seq<R.Part> := [R.SetPart, R.ClaimPart];
    var o1: seq<R.Part> := [R.ServicePart, R.SetPart, R.ClaimPart];
    assert R.ORDER[1..] == o1 && o1[1..] == o2 && o2[1..] == o3 && o3[1..] == [];
    var used := Used(g, a, spec, changes);
    var a1 := a.(cfg := used);
    var a2 := a1.(c := a1.c.(service := ServiceIn(a1.c, used, changes)));
    ApplyFrom(g, a, spec, changes, R.ORDER);
    ApplyFrom(g, a1, spec, changes, o1);
    ApplyFrom(g, a2, spec, changes, o2);
    hide ApplyIn;
    assert ApplyIn(g, a, spec, changes, R.ORDER) == ApplyIn(g, a1, spec, changes, o1);
    assert ApplyIn(g, a1, spec, changes, o1) == ApplyIn(g, a2, spec, changes, o2);
    var a3 := EnsureIn(g, a2, spec, R.SetPart).value;
    ApplyFrom(g, a3, spec, changes, o3);
  }

  lemma MadeOf(g: Setting, c: Children, cfg: D.Config)
    requires D.DesiredSet(g.lib, g.name, cfg).Ok?
    ensures cfg.template.spec.kind != OtherType
    ensures var s := D.EnsuredSet(c.stateful, D.DesiredSet(g.lib, g.name, cfg).value);
            |s.containers| > 0 && s.containers[0].env == D.MainEnv(g.lib, cfg)
  {
    hide D.MainEnv, D.PluginContainers;
  }

  lemma NotStaleData(g: Setting, c: Children, spec: KodeSpec, cfg: D.Config)
    requires !V.Stale(g, c, spec, cfg, R.SecretPart)
    ensures var n := D.SecretName(g.name, spec);
            n in c.secrets && Username in c.secrets[n].data && c.secrets[n].data[Username] == cfg.credentials.username
  {
  }
}

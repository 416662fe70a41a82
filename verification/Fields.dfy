/** From the fields the user and the template's author wrote to what the operator makes of them: names, labels,
    credentials, containers; and readiness, staleness and validity spelled out on the objects' own fields. */
module Fields {
  import opened KodeTypes
  import opened Cluster
  import A = Agreement
  import D = Desired
  import R = Resources
  import St = Startup
  import T = Templates
  import V = Convergence
  import Q = QuietPhases

  // ---- names, labels, credentials ----

  /** A child carries the Kode's labels. */
  predicate Labelled(labels: Labels, name: string, template: string) {
    && AppName in labels && labels[AppName] == name
    && ManagedBy in labels && labels[ManagedBy] == "kode-operator"
    && KodeName in labels && labels[KodeName] == name
    && TemplateName in labels && labels[TemplateName] == template
  }

  lemma LabelsAre(g: Setting, spec: KodeSpec, labels: Labels)
    requires T.Visible(g.store, spec.templateRef).Ok?
    ensures var cfg := A.ConfigOf(g, spec); D.Carries(labels, cfg.labels) <==> Labelled(labels, g.name, spec.templateRef.name)
    ensures var cfg := A.ConfigOf(g, spec);
            Labelled(cfg.labels, g.name, spec.templateRef.name) && cfg.labels.Keys == {AppName, ManagedBy, KodeName, TemplateName}
  {
    TemplateNameIs(g, spec);
    hide T.Visible;
    var cfg := A.ConfigOf(g, spec);
    if Labelled(labels, g.name, spec.templateRef.name) {
      forall k | k in cfg.labels ensures k in labels && labels[k] == cfg.labels[k] {
        assert k == AppName || k == ManagedBy || k == KodeName || k == TemplateName;
      }
    }
  }

  lemma TemplateNameIs(g: Setting, spec: KodeSpec)
    ensures T.Visible(g.store, spec.templateRef).Ok? ==> T.Visible(g.store, spec.templateRef).value.name == spec.templateRef.name
  {
  }

  /** The user's credentials, or the default user without a password. */
  predicate CredentialsOf(spec: KodeSpec, user: string, password: string) {
    if spec.credentials.Some? then user == spec.credentials.value.username && password == spec.credentials.value.password
    else user == "abc" && password == ""
  }

  function TheSecretName(g: Setting, spec: KodeSpec): string {
    if spec.credentials.Some? && spec.credentials.value.existingSecret.Some? then spec.credentials.value.existingSecret.value else g.name + "-auth"
  }

  /** Storage is given with something in it: modes, a class, a claim of the user's, or a size. */
  predicate GivesStorage(spec: KodeSpec) {
    spec.storage.Some? &&
    var st := spec.storage.value;
    || st.accessModes != [] || st.storageClass.Some? || st.existingClaim.Some?
    || (st.resources.Some? && st.resources.value.storage > 0)
  }

  lemma StorageIs(spec: KodeSpec)
    ensures D.StorageIsEmpty(spec.storage) <==> !GivesStorage(spec)
    ensures V.WantsClaim(spec) <==> Manages(spec) && GivesStorage(spec)
  {
  }

  predicate Manages(spec: KodeSpec) { spec.storage.Some? && spec.storage.value.existingClaim.None? }

  // ---- readiness ----

  /** The first condition of type Ready, if there is one, is True. */
  predicate FirstReady(cs: seq<PodCondition>) {
    exists j :: 0 <= j < |cs| && cs[j].isReadyType && cs[j].isTrue && forall i :: 0 <= i < j ==> !cs[i].isReadyType
  }

  lemma {:induction false} FirstReadyIs(cs: seq<PodCondition>)
    ensures D.PodReady(cs) <==> FirstReady(cs)
  {
    if cs != [] && !cs[0].isReadyType {
      FirstReadyIs(cs[1..]);
      if FirstReady(cs) {
        var j :| 0 <= j < |cs| && cs[j].isReadyType && cs[j].isTrue && forall i :: 0 <= i < j ==> !cs[i].isReadyType;
        assert cs[1..][j - 1] == cs[j];
        assert forall i :: 0 <= i < j - 1 ==> cs[1..][i] == cs[i + 1];
      }
      if FirstReady(cs[1..]) {
        var j :| 0 <= j < |cs[1..]| && cs[1..][j].isReadyType && cs[1..][j].isTrue && forall i :: 0 <= i < j ==> !cs[1..][i].isReadyType;
        assert cs[j + 1] == cs[1..][j];
        forall i | 0 <= i < j + 1 ensures !cs[i].isReadyType {
          if i > 0 { assert cs[i] == cs[1..][i - 1]; }
        }
      }
    } else if cs != [] {
      assert cs[0].isTrue ==> FirstReady(cs);
    }
  }

  /** There is a pod of the Kode, and all of them run and are ready. */
  predicate PodsRun(pods: seq<Pod>, name: string, template: string) {
    && (exists i :: 0 <= i < |pods| && Labelled(pods[i].labels, name, template))
    && (forall i :: 0 <= i < |pods| && Labelled(pods[i].labels, name, template) ==> pods[i].running && FirstReady(pods[i].conditions))
  }

  /** The children are ready, on their own fields. */
  predicate IsReady(g: Setting, c: Children, spec: KodeSpec, port: int) {
    && TheSecretName(g, spec) in c.secrets && Username in c.secrets[TheSecretName(g, spec)].data
    && (spec.credentials.Some? && spec.credentials.value.builtinAuth ==> Password in c.secrets[TheSecretName(g, spec)].data)
    && c.service.Some? && (exists i :: 0 <= i < |c.service.value.ports| && c.service.value.ports[i].port == port)
    && c.stateful.Some? && c.stateful.value.readyReplicas == c.stateful.value.replicas
    && (Manages(spec) ==> g.name + "-pvc" in c.claims && c.claims[g.name + "-pvc"].bound)
    && PodsRun(c.pods, g.name, spec.templateRef.name)
  }

  lemma PodsRunIs(g: Setting, spec: KodeSpec, pods: seq<Pod>)
    requires T.Visible(g.store, spec.templateRef).Ok?
    ensures D.PodsReady(pods, A.ConfigOf(g, spec).labels) <==> PodsRun(pods, g.name, spec.templateRef.name)
  {
    var cfg := A.ConfigOf(g, spec);
    forall i | 0 <= i < |pods|
      ensures D.Carries(pods[i].labels, cfg.labels) <==> Labelled(pods[i].labels, g.name, spec.templateRef.name)
      ensures D.PodReady(pods[i].conditions) <==> FirstReady(pods[i].conditions)
    {
      LabelsAre(g, spec, pods[i].labels);
      FirstReadyIs(pods[i].conditions);
    }
    hide D.Carries, Labelled, D.PodReady, FirstReady, T.Visible, A.ConfigOf;
    if PodsRun(pods, g.name, spec.templateRef.name) {
      var i :| 0 <= i < |pods| && Labelled(pods[i].labels, g.name, spec.templateRef.name);
      assert D.Carries(pods[i].labels, cfg.labels);
    }
    if D.PodsReady(pods, cfg.labels) {
      var i :| 0 <= i < |pods| && D.Carries(pods[i].labels, cfg.labels);
      assert Labelled(pods[i].labels, g.name, spec.templateRef.name);
    }
  }

  /** Readiness as the handlers find it is this. */
  lemma ReadyByFields(g: Setting, c: Children, spec: KodeSpec)
    requires T.Visible(g.store, spec.templateRef).Ok?
    ensures A.ReadyNow(g, c, spec, A.ConfigOf(g, spec)) <==> IsReady(g, c, spec, T.Visible(g.store, spec.templateRef).value.spec.port)
  {
    PodsRunIs(g, spec, c.pods);
    hide D.PodsReady, PodsRun, T.Visible, D.CreateLabels;
  }

  // ---- what the operator makes, from the fields ----

  predicate HasEnv(env: seq<EnvVar>, name: string, value: string) { exists i :: 0 <= i < |env| && env[i] == EnvVar(name, value) }

  predicate NoEnv(env: seq<EnvVar>, name: string) { forall i :: 0 <= i < |env| ==> env[i].name != name }

  /** Where a Kode's home is mounted: a home counts only when a workspace is given with it. */
  function HomeOf(spec: KodeSpec, t: TemplateSpec): string {
    if spec.workspace.Some? && spec.home.Some? then spec.home.value else t.defaultHome
  }

  /** The environment of the main container. */
  predicate EnvIs(lib: D.Lib, env: seq<EnvVar>, spec: KodeSpec, t: TemplateSpec, c: Credentials) {
    && HasEnv(env, "PUID", lib.decimal(t.puid)) && HasEnv(env, "PGID", lib.decimal(t.pgid)) && HasEnv(env, "TZ", t.timezone)
    && (t.kind == CodeServer ==>
          && HasEnv(env, "PORT", lib.decimal(3000)) && HasEnv(env, "USERNAME", c.username)
          && HasEnv(env, "DEFAULT_WORKSPACE",
                    lib.join(HomeOf(spec, t), if spec.workspace.Some? then spec.workspace.value else t.defaultWorkspace)))
    && (t.kind == Webtop ==> HasEnv(env, "CUSTOM_PORT", lib.decimal(3000)) && HasEnv(env, "CUSTOM_USER", c.username))
    && (if c.builtinAuth && c.password != "" then HasEnv(env, "PASSWORD", "") else NoEnv(env, "PASSWORD"))
    && forall i, j :: 0 <= i < j < |env| ==> env[i].name != env[j].name
  }

  lemma MainEnvIs(lib: D.Lib, cfg: D.Config)
    requires cfg.template.spec.kind != OtherType
    ensures EnvIs(lib, D.MainEnv(lib, cfg), cfg.spec, cfg.template.spec, cfg.credentials)
  {
    var env := D.MainEnv(lib, cfg);
    var t := cfg.template.spec;
    assert env[0].name == "PUID" && env[1].name == "PGID" && env[2].name == "TZ";
    if t.kind == CodeServer {
      assert env[3].name == "PORT" && env[4].name == "USERNAME" && env[5].name == "DEFAULT_WORKSPACE";
      assert cfg.credentials.builtinAuth && cfg.credentials.password != "" ==> env[6] == EnvVar("PASSWORD", "");
    } else {
      assert env[3].name == "CUSTOM_PORT" && env[4].name == "CUSTOM_USER";
      assert cfg.credentials.builtinAuth && cfg.credentials.password != "" ==> env[5] == EnvVar("PASSWORD", "");
    }
  }

  lemma {:induction false} PluginsAre(ps: seq<InitPlugin>)
    ensures var cs := D.PluginContainers(ps);
            |cs| == |ps| && forall i :: 0 <= i < |ps| ==> cs[i] == Container("plugin-" + ps[i].name, ps[i].image, [], [])
  {
    if ps != [] {
      PluginsAre(ps[1..]);
    }
  }

  /** A stateful set made for this spec and template: one replica; the main container first, then the sidecars; the
      sidecars' init containers, the template's plugins and the user's, in this order; the storage's volume. */
  predicate SetIsFor(g: Setting, s: StatefulSet, spec: KodeSpec, t: TemplateSpec, c: Credentials) {
    && s.replicas == 1 && Labelled(s.selector, g.name, spec.templateRef.name)
    && |s.containers| == 1 + |t.sidecars| && s.containers[1..] == t.sidecars
    && s.containers[0].name == (if t.kind == CodeServer then "code-server" else "webtop") && s.containers[0].image == t.image
    && EnvIs(g.lib, s.containers[0].env, spec, t, c)
    && s.containers[0].mounts == (if spec.storage.Some? then [Mount("kode-storage", HomeOf(spec, t))] else [])
    && InitsAre(s.initContainers, t, spec)
    && s.volumes == (if spec.storage.None? then []
                     else if spec.storage.value.existingClaim.Some? then [Volume("kode-storage", spec.storage.value.existingClaim.value)]
                     else [Volume("kode-storage", g.name + "-pvc")])
    && (if t.runtimeClass == "" then s.runtimeClass.None? else s.runtimeClass == Some(t.runtimeClass))
  }

  predicate InitsAre(cs: seq<Container>, t: TemplateSpec, spec: KodeSpec) {
    var a, b := |t.sidecarInits|, |t.initPlugins|;
    && |cs| == a + b + |spec.initPlugins| && cs[..a] == t.sidecarInits
    && (forall i :: 0 <= i < b ==> cs[a + i] == Container("plugin-" + t.initPlugins[i].name, t.initPlugins[i].image, [], []))
    && (forall i :: 0 <= i < |spec.initPlugins| ==>
          cs[a + b + i] == Container("plugin-" + spec.initPlugins[i].name, spec.initPlugins[i].image, [], []))
  }

  lemma InitsByFields(cfg: D.Config)
    ensures var t := cfg.template.spec;
            InitsAre(t.sidecarInits + D.PluginContainers(t.initPlugins) + D.PluginContainers(cfg.spec.initPlugins), t, cfg.spec)
  {
    PluginsAre(cfg.template.spec.initPlugins);
    PluginsAre(cfg.spec.initPlugins);
    hide D.PluginContainers;
  }

  lemma DesiredByFields(g: Setting, spec: KodeSpec)
    requires T.Visible(g.store, spec.templateRef).Ok? && T.Visible(g.store, spec.templateRef).value.spec.kind != OtherType
    ensures var cfg := A.ConfigOf(g, spec);
            var s := D.DesiredSet(g.lib, g.name, cfg);
            s.Ok? && SetIsFor(g, s.value, spec, T.Visible(g.store, spec.templateRef).value.spec, cfg.credentials)
  {
    var cfg := A.ConfigOf(g, spec);
    LabelsAre(g, spec, cfg.labels);
    MainEnvIs(g.lib, cfg);
    InitsByFields(cfg);
    Q.ConfigSpec(g, spec);
    hide T.Visible, D.MainEnv, D.PluginContainers, EnvIs, InitsAre, Labelled, D.CreateLabels;
  }

  predicate SecretFor(g: Setting, c: Children, spec: KodeSpec) {
    var n := g.name + "-auth";
    && n in c.secrets && c.secrets[n].data.Keys == {Username, Password} && Labelled(c.secrets[n].labels, g.name, spec.templateRef.name)
    && CredentialsOf(spec, c.secrets[n].data[Username], c.secrets[n].data[Password])
  }

  predicate ServiceFor(g: Setting, c: Children, spec: KodeSpec, t: TemplateSpec) {
    && c.service.Some? && c.service.value.ports == [ServicePort(TCP, t.port, t.port)]
    && Labelled(c.service.value.selector, g.name, spec.templateRef.name)
  }

  predicate ClaimFor(g: Setting, c: Children, spec: KodeSpec) {
    Manages(spec) && GivesStorage(spec) ==>
      var m := g.name + "-pvc";
      && m in c.claims && c.claims[m].accessModes == spec.storage.value.accessModes
      && c.claims[m].storageClass == spec.storage.value.storageClass && Some(c.claims[m].resources) == spec.storage.value.resources
  }

  /** The children of a Kode without an existing secret, made from nothing. */
  predicate MadeFor(g: Setting, c: Children, spec: KodeSpec, t: TemplateSpec) {
    && SecretFor(g, c, spec) && ServiceFor(g, c, spec, t) && ClaimFor(g, c, spec)
    && c.stateful.Some?
    && SetIsFor(g, c.stateful.value, spec, t, if spec.credentials.Some? then spec.credentials.value else Credentials("abc", "", None, false))
  }

  lemma MadeByFields(g: Setting, c: Children, spec: KodeSpec)
    requires T.Visible(g.store, spec.templateRef).Ok? && T.Visible(g.store, spec.templateRef).value.spec.kind != OtherType
    requires D.ExistingSecret(spec).None? && A.Made(g, c, spec, A.ConfigOf(g, spec))
    ensures MadeFor(g, c, spec, T.Visible(g.store, spec.templateRef).value.spec)
  {
    hide T.Visible, SetIsFor, SecretFor, ServiceFor, ClaimFor, Labelled, D.CreateLabels, D.DesiredSet, D.StorageIsEmpty, D.DesiredData, D.DesiredService,
      D.DesiredClaim, D.SecretName, D.ClaimName;
    SecretByFields(g, c, spec);
    ServiceByFields(g, c, spec);
    ClaimByFields(g, c, spec);
    DesiredByFields(g, spec);
    SetSame(g, c.stateful.value, D.DesiredSet(g.lib, g.name, A.ConfigOf(g, spec)).value, spec, T.Visible(g.store, spec.templateRef).value.spec,
            A.ConfigOf(g, spec).credentials);
  }

  lemma SecretByFields(g: Setting, c: Children, spec: KodeSpec)
    requires T.Visible(g.store, spec.templateRef).Ok? && D.ExistingSecret(spec).None? && A.PartMade(g, c, spec, A.ConfigOf(g, spec), R.SecretPart)
    ensures SecretFor(g, c, spec)
  {
    hide T.Visible, Labelled, D.CreateLabels;
    LabelsAre(g, spec, A.ConfigOf(g, spec).labels);
  }

  lemma ServiceByFields(g: Setting, c: Children, spec: KodeSpec)
    requires T.Visible(g.store, spec.templateRef).Ok? && A.PartMade(g, c, spec, A.ConfigOf(g, spec), R.ServicePart)
    ensures ServiceFor(g, c, spec, T.Visible(g.store, spec.templateRef).value.spec)
  {
    hide T.Visible, Labelled, D.CreateLabels;
    LabelsAre(g, spec, A.ConfigOf(g, spec).labels);
  }

  lemma ClaimByFields(g: Setting, c: Children, spec: KodeSpec)
    requires T.Visible(g.store, spec.templateRef).Ok? && A.Made(g, c, spec, A.ConfigOf(g, spec))
    ensures ClaimFor(g, c, spec)
  {
    hide T.Visible, D.StorageIsEmpty, GivesStorage, D.CreateLabels, D.DesiredSet;
    StorageIs(spec);
  }

  lemma SetSame(g: Setting, s: StatefulSet, d: StatefulSet, spec: KodeSpec, t: TemplateSpec, c: Credentials)
    ensures s.(readyReplicas := 0) == d && SetIsFor(g, d, spec, t, c) ==> SetIsFor(g, s, spec, t, c)
  {
    hide EnvIs, InitsAre, Labelled;
  }

  /** What a new Kode has when it is Active, from its fields. */
  lemma StartedByFields(g: Setting, y: Sys, spec: KodeSpec, k: nat)
    requires Friendly(g) && St.Startable(g, spec) && St.New(g, y.w, spec)
    ensures (forall n: nat :: 3 <= n < 3 + k ==> !St.ReadyAt(g, y, n)) && St.ReadyAt(g, y, 3 + k) ==>
              T.Visible(g.store, spec.templateRef).Ok?
              && MadeFor(g, St.Reconciles(g, y, 4 + k).w.children, spec, T.Visible(g.store, spec.templateRef).value.spec)
  {
    assert T.Visible(g.store, spec.templateRef).Ok? && T.Visible(g.store, spec.templateRef).value.spec.kind != OtherType
           && D.ExistingSecret(spec).None? by { hide T.Visible, D.KodeValid, D.StorageIsEmpty; }
    hide Friendly, St.Startable, St.New, St.ReadyAt, St.Reconciles, A.Made, MadeFor, T.Visible, A.ConfigOf;
    St.StartupReachesActive(g, y, spec, k);
    if (forall n: nat :: 3 <= n < 3 + k ==> !St.ReadyAt(g, y, n)) && St.ReadyAt(g, y, 3 + k) {
      MadeByFields(g, St.Reconciles(g, y, 4 + k).w.children, spec);
    }
  }

  // ---- staleness, on the fields ----

  predicate SecretFits(g: Setting, c: Children, spec: KodeSpec) {
    var n := TheSecretName(g, spec);
    n in c.secrets && c.secrets[n].data.Keys == {Username, Password} && CredentialsOf(spec, c.secrets[n].data[Username], c.secrets[n].data[Password])
  }

  predicate ServiceFits(g: Setting, c: Children, spec: KodeSpec, port: int) {
    && c.service.Some? && c.service.value.ports == [ServicePort(TCP, port, port)]
    && c.service.value.selector.Keys == {AppName, ManagedBy, KodeName, TemplateName}
    && Labelled(c.service.value.selector, g.name, spec.templateRef.name)
  }

  predicate ClaimIsAsked(g: Setting, c: Children, spec: KodeSpec) {
    Manages(spec) && GivesStorage(spec) ==>
      var m := g.name + "-pvc";
      var st := spec.storage.value;
      && m in c.claims
      && (st.resources.Some? ==>
            && c.claims[m].resources.storage == st.resources.value.storage && c.claims[m].accessModes == st.accessModes
            && (st.storageClass.Some? ==> c.claims[m].storageClass == st.storageClass))
  }

  /** The images of the main container and of the sidecars, one after the other. */
  predicate ImagesAre(images: seq<string>, t: TemplateSpec) {
    && (|images| > 0 ==> images[0] == t.image)
    && forall i :: 0 < i < |images| && i <= |t.sidecars| ==> images[i] == t.sidecars[i - 1].image
  }

  /** The images are the template's, the hash is the wanted one, and so are the images of every pod of the Kode. */
  predicate SetFits(g: Setting, c: Children, spec: KodeSpec, t: TemplateSpec, hash: string) {
    && c.stateful.Some? && ImagesAre(D.ImagesOf(c.stateful.value.containers), t) && c.stateful.value.templateHash == hash
    && forall i :: 0 <= i < |c.pods| && Labelled(c.pods[i].labels, g.name, spec.templateRef.name) ==> ImagesAre(c.pods[i].images, t)
  }

  lemma DataIs(spec: KodeSpec, data: map<DataKey, string>, c: Credentials)
    requires c == if spec.credentials.Some? then spec.credentials.value else Credentials("abc", "", None, false)
    ensures data == D.DesiredData(c) <==> data.Keys == {Username, Password} && CredentialsOf(spec, data[Username], data[Password])
  {
    if data.Keys == {Username, Password} && CredentialsOf(spec, data[Username], data[Password]) {
      assert forall k :: k in data ==> data[k] == D.DesiredData(c)[k];
    }
  }

  lemma SelectorIs(g: Setting, spec: KodeSpec, labels: Labels)
    requires T.Visible(g.store, spec.templateRef).Ok?
    ensures labels == A.ConfigOf(g, spec).labels <==>
              labels.Keys == {AppName, ManagedBy, KodeName, TemplateName} && Labelled(labels, g.name, spec.templateRef.name)
  {
    LabelsAre(g, spec, labels);
    var required := A.ConfigOf(g, spec).labels;
    hide T.Visible, A.ConfigOf;
    if labels.Keys == {AppName, ManagedBy, KodeName, TemplateName} && Labelled(labels, g.name, spec.templateRef.name) {
      assert labels.Keys == required.Keys by { LabelsAre(g, spec, labels); }
    }
  }

  lemma ImagesDifferExactly(lib: D.Lib, name: string, cfg: D.Config, images: seq<string>)
    requires cfg.template.spec.kind != OtherType
    ensures D.ImagesDiffer(images, D.DesiredSet(lib, name, cfg).value.containers) <==> !ImagesAre(images, cfg.template.spec)
  {
    var t := cfg.template.spec;
    var cs := D.DesiredSet(lib, name, cfg).value.containers;
    hide D.MainEnv, D.PluginContainers;
    assert |cs| == 1 + |t.sidecars| && cs[0].image == t.image && forall i :: 0 < i < |cs| ==> cs[i] == t.sidecars[i - 1];
  }

  /** What detection looks for, on the fields. */
  lemma StaleByFields(g: Setting, c: Children, spec: KodeSpec)
    requires T.Visible(g.store, spec.templateRef).Ok?
    ensures var cfg := A.ConfigOf(g, spec);
            var t := T.Visible(g.store, spec.templateRef).value.spec;
            && (V.Stale(g, c, spec, cfg, R.SecretPart) <==> !SecretFits(g, c, spec))
            && (V.Stale(g, c, spec, cfg, R.ServicePart) <==> !ServiceFits(g, c, spec, t.port))
            && (V.Stale(g, c, spec, cfg, R.ClaimPart) <==> !ClaimIsAsked(g, c, spec))
            && (t.kind != OtherType ==>
                  (V.Stale(g, c, spec, cfg, R.SetPart) <==>
                     !SetFits(g, c, spec, t, D.DesiredSet(g.lib, g.name, cfg).value.templateHash)))
  {
    SecretStaleIs(g, c, spec);
    ServiceStaleIs(g, c, spec);
    if T.Visible(g.store, spec.templateRef).value.spec.kind != OtherType { SetStaleIs(g, c, spec); }
    ClaimStaleIs(g, c, spec);
    hide V.Stale, SecretFits, ServiceFits, ClaimIsAsked, SetFits, T.Visible, D.DesiredSet, A.ConfigOf;
  }

  lemma SecretStaleIs(g: Setting, c: Children, spec: KodeSpec)
    requires T.Visible(g.store, spec.templateRef).Ok?
    ensures V.Stale(g, c, spec, A.ConfigOf(g, spec), R.SecretPart) <==> !SecretFits(g, c, spec)
  {
    var n := TheSecretName(g, spec);
    hide T.Visible, D.DesiredData, CredentialsOf, D.CreateLabels;
    if n in c.secrets { DataIs(spec, c.secrets[n].data, A.ConfigOf(g, spec).credentials); }
  }

  lemma ServiceStaleIs(g: Setting, c: Children, spec: KodeSpec)
    requires T.Visible(g.store, spec.templateRef).Ok?
    ensures V.Stale(g, c, spec, A.ConfigOf(g, spec), R.ServicePart) <==> !ServiceFits(g, c, spec, T.Visible(g.store, spec.templateRef).value.spec.port)
  {
    hide T.Visible, Labelled, D.CreateLabels;
    if c.service.Some? { SelectorIs(g, spec, c.service.value.selector); }
  }

  lemma ClaimStaleIs(g: Setting, c: Children, spec: KodeSpec)
    requires T.Visible(g.store, spec.templateRef).Ok?
    ensures V.Stale(g, c, spec, A.ConfigOf(g, spec), R.ClaimPart) <==> !ClaimIsAsked(g, c, spec)
  {
    hide T.Visible, D.StorageIsEmpty, GivesStorage, A.ConfigOf;
    StorageIs(spec);
  }

  lemma SetStaleIs(g: Setting, c: Children, spec: KodeSpec)
    requires T.Visible(g.store, spec.templateRef).Ok? && T.Visible(g.store, spec.templateRef).value.spec.kind != OtherType
    ensures var cfg := A.ConfigOf(g, spec);
            V.Stale(g, c, spec, cfg, R.SetPart) <==>
              !SetFits(g, c, spec, T.Visible(g.store, spec.templateRef).value.spec, D.DesiredSet(g.lib, g.name, cfg).value.templateHash)
  {
    var cfg := A.ConfigOf(g, spec);
    var t := T.Visible(g.store, spec.templateRef).value.spec;
    assert cfg.template.spec == t && D.DesiredSet(g.lib, g.name, cfg).Ok? by { hide T.Visible, D.CreateLabels, D.PodTemplateOf; }
    hide T.Visible, D.DesiredSet, A.ConfigOf, D.Carries, Labelled, ImagesAre, D.ImagesDiffer;
    if c.stateful.Some? { ImagesDifferExactly(g.lib, g.name, cfg, D.ImagesOf(c.stateful.value.containers)); }
    forall i | 0 <= i < |c.pods|
      ensures D.PodOutdated(c.pods[i], cfg, D.DesiredSet(g.lib, g.name, cfg).value) <==>
                Labelled(c.pods[i].labels, g.name, spec.templateRef.name) && !ImagesAre(c.pods[i].images, t)
    {
      LabelsAre(g, spec, c.pods[i].labels);
      ImagesDifferExactly(g.lib, g.name, cfg, c.pods[i].images);
    }
    hide D.PodOutdated;
  }

  // ---- validity, on the fields ----

  /** A claim is as the spec wants it: the class if one is given, the modes, the size if one is given. */
  predicate ClaimIsValid(c: Claim, st: Storage) {
    && (st.storageClass.Some? ==> c.storageClass == st.storageClass)
    && |c.accessModes| == |st.accessModes| && (forall a :: a in st.accessModes ==> a in c.accessModes)
    && (st.resources.Some? ==> c.resources.storage == st.resources.value.storage)
  }

  predicate IsValid(g: Setting, c: Children, spec: KodeSpec, t: TemplateSpec) {
    var n := TheSecretName(g, spec);
    && n in c.secrets && Username in c.secrets[n].data
    && (spec.credentials.Some? && spec.credentials.value.builtinAuth ==> Password in c.secrets[n].data)
    && Labelled(c.secrets[n].labels, g.name, spec.templateRef.name)
    && c.service.Some? && Labelled(c.service.value.selector, g.name, spec.templateRef.name)
    && (exists i :: 0 <= i < |c.service.value.ports| && c.service.value.ports[i].port == t.port)
    && c.stateful.Some? && c.stateful.value.replicas == 1
    && |c.stateful.value.containers| > 0 && c.stateful.value.containers[0].image == t.image
    && (spec.storage.Some? ==>
          var mounts := c.stateful.value.containers[0].mounts;
          exists i :: 0 <= i < |mounts| && mounts[i].name == "kode-storage")
    && (Manages(spec) ==> g.name + "-pvc" in c.claims && ClaimIsValid(c.claims[g.name + "-pvc"], spec.storage.value))
  }

  lemma ClaimValidIs(c: Claim, st: Storage)
    ensures D.ValidateClaim(c, st).None? <==> ClaimIsValid(c, st)
  {
  }

  /** What validation asks for is this. */
  lemma ValidByFields(g: Setting, c: Children, spec: KodeSpec)
    requires T.Visible(g.store, spec.templateRef).Ok?
    ensures A.ValidNow(g, c, spec, A.ConfigOf(g, spec)) <==> IsValid(g, c, spec, T.Visible(g.store, spec.templateRef).value.spec)
  {
    hide D.ValidateClaim, ClaimIsValid, T.Visible, Labelled, D.Carries, D.CreateLabels;
    if TheSecretName(g, spec) in c.secrets { LabelsAre(g, spec, c.secrets[TheSecretName(g, spec)].labels); }
    if c.service.Some? { LabelsAre(g, spec, c.service.value.selector); }
    if Manages(spec) && g.name + "-pvc" in c.claims { ClaimValidIs(c.claims[g.name + "-pvc"], spec.storage.value); }
  }
}

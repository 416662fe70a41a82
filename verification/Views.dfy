/** The loops over labels, ports, mounts, pods and access modes of validate_resources.go,
    check_resources.go and configure_resources.go, and the building of the stateful set. */
module Views {
  import opened KodeTypes
  import opened Desired
  import H = PodTemplateHash

  method HasRequiredLabels(actual: Labels, required: Labels) returns (r: bool)
    ensures r == Carries(actual, required)
  {
    var keys := required.Keys;
    while keys != {}
      invariant keys <= required.Keys
      invariant forall k :: k in required && k !in keys ==> k in actual && actual[k] == required[k]
      decreases |keys|
    {
      var key :| key in keys;
      if key !in actual || actual[key] != required[key] {
        return false;
      }
      keys := keys - {key};
    }
    return true;
  }

  method HasMatchingAccessModes(actual: seq<AccessMode>, required: seq<AccessMode>) returns (r: bool)
    ensures r == MatchingModes(actual, required)
  {
    if |actual| != |required| {
      return false;
    }
    var actualMap: map<AccessMode, bool> := map[];
    for i := 0 to |actual|
      invariant forall m :: m in actualMap <==> m in actual[..i]
    {
      actualMap := actualMap[actual[i] := true];
    }
    for i := 0 to |required|
      invariant forall j :: 0 <= j < i ==> required[j] in actual
    {
      if required[i] !in actualMap {
        assert actual[..|actual|] == actual && required[i] in required;
        return false;
      }
    }
    return true;
  }

  predicate NoDuplicates<T(==)>(s: seq<T>) { forall i, j :: 0 <= i < j < |s| ==> s[i] != s[j] }

  function Without<T>(s: seq<T>, i: nat): seq<T>
    requires i < |s|
  {
    s[..i] + s[i + 1..]
  }

  lemma WithoutOne<T>(s: seq<T>, i: nat)
    requires i < |s|
    ensures multiset(s) == multiset(Without(s, i)) + multiset{s[i]}
    ensures forall x :: x in s && x != s[i] ==> x in Without(s, i)
  {
    assert s == s[..i] + [s[i]] + s[i + 1..];
  }

  /** A list without duplicates whose elements all lie in a list of the same length is a permutation of it. */
  lemma {:induction false} Pigeonhole<T>(a: seq<T>, b: seq<T>)
    requires NoDuplicates(b) && |a| == |b| && forall x :: x in b ==> x in a
    ensures multiset(a) == multiset(b)
  {
    if b != [] {
      assert b[0] in a;
      var i :| 0 <= i < |a| && a[i] == b[0];
      WithoutOne(a, i);
      WithoutOne(b, 0);
      assert Without(b, 0) == b[1..];
      forall x | x in b[1..] ensures x in Without(a, i) {
        assert x in b && x != b[0];
      }
      hide Without;
      assert |multiset(a)| == |multiset(Without(a, i))| + 1;
      Pigeonhole(Without(a, i), b[1..]);
    }
  }

  /** For a list of required modes without duplicates the test is: the same modes in any order. */
  lemma MatchingIsPermutation(actual: seq<AccessMode>, required: seq<AccessMode>)
    requires NoDuplicates(required)
    ensures MatchingModes(actual, required) <==> multiset(actual) == multiset(required)
  {
    if MatchingModes(actual, required) {
      Pigeonhole(actual, required);
    }
    if multiset(actual) == multiset(required) {
      assert |multiset(actual)| == |multiset(required)|;
      forall m | m in required ensures m in actual {
        assert m in multiset(required);
      }
    }
  }

  /** With duplicates the two differ. */
  lemma DuplicatesFool()
    ensures exists actual, required :: MatchingModes(actual, required) && multiset(actual) != multiset(required)
  {
    var actual, required := [ReadWriteOnce, ReadOnlyMany], [ReadWriteOnce, ReadWriteOnce];
    assert MatchingModes(actual, required);
    assert multiset(actual)[ReadOnlyMany] == 1 && multiset(required)[ReadOnlyMany] == 0;
  }

  method IsPodReady(conditions: seq<PodCondition>) returns (r: bool)
    ensures r == PodReady(conditions)
  {
    for i := 0 to |conditions|
      invariant PodReady(conditions) == PodReady(conditions[i..])
    {
      if conditions[i].isReadyType {
        return conditions[i].isTrue;
      }
      assert conditions[i..][1..] == conditions[i + 1..];
    }
    return false;
  }

  /** checkPodsReady on the pods of the namespace; the list call selects by label. */
  method CheckPods(pods: seq<Pod>, labels: Labels) returns (r: bool)
    ensures r == PodsReady(pods, labels)
  {
    hide Carries, PodReady;
    var listed := false;
    for i := 0 to |pods|
      invariant listed <==> exists j :: 0 <= j < i && Carries(pods[j].labels, labels)
      invariant forall j :: 0 <= j < i && Carries(pods[j].labels, labels) ==> PodUp(pods[j])
    {
      var selected := HasRequiredLabels(pods[i].labels, labels);
      if selected {
        listed := true;
        var ready := IsPodReady(pods[i].conditions);
        if !pods[i].running || !ready {
          return false;
        }
      }
    }
    return listed;
  }

  method ImagesMismatch(images: seq<string>, desired: seq<Container>) returns (r: bool)
    ensures r == ImagesDiffer(images, desired)
  {
    for i := 0 to |images|
      invariant forall j :: 0 <= j < i && j < |desired| ==> images[j] == desired[j].image
    {
      if i < |desired| && images[i] != desired[i].image {
        return true;
      }
    }
    return false;
  }

  method HasPort(s: Service, cfg: Config) returns (r: bool)
    ensures r == ServiceHasPort(s, cfg)
  {
    for i := 0 to |s.ports|
      invariant forall j :: 0 <= j < i ==> s.ports[j].port != cfg.template.spec.port
    {
      if s.ports[i].port == cfg.template.spec.port {
        return true;
      }
    }
    return false;
  }

  method ServiceIsValid(s: Service, cfg: Config) returns (r: bool)
    ensures r == ServiceValid(s, cfg)
  {
    var hasPort := HasPort(s, cfg);
    if !hasPort {
      return false;
    }
    r := HasRequiredLabels(s.selector, cfg.labels);
  }

  /** validateStatefulSet on an existing stateful set. */
  method SetIsValid(s: StatefulSet, cfg: Config) returns (r: bool)
    ensures r == SetValid(s, cfg)
  {
    if s.replicas != 1 || |s.containers| == 0 || s.containers[0].image != cfg.template.spec.image {
      return false;
    }
    if cfg.spec.storage.None? {
      return true;
    }
    var mounts := s.containers[0].mounts;
    for i := 0 to |mounts|
      invariant forall j :: 0 <= j < i ==> mounts[j].name != STORAGE_VOLUME
    {
      if mounts[i].name == STORAGE_VOLUME {
        return true;
      }
    }
    return false;
  }

  /** checkSecretReady on an existing secret. */
  method SecretFields(s: Secret, spec: KodeSpec) returns (r: bool)
    ensures r == SecretHasFields(s, spec)
  {
    var hasUsername, hasPassword := false, false;
    if Username in s.data {
      hasUsername := true;
    }
    if Password in s.data {
      hasPassword := true;
    }
    r := hasUsername && !(spec.credentials.Some? && spec.credentials.value.builtinAuth && !hasPassword);
  }

  /** validatePVC on an existing claim. */
  method ClaimError(c: Claim, st: Storage) returns (e: Option<Err>)
    ensures e == ValidateClaim(c, st)
  {
    hide MatchingModes;
    if st.storageClass.Some? && (c.storageClass.None? || c.storageClass.value != st.storageClass.value) {
      return Some(if c.storageClass.None? then NilPointer else Invalid);
    }
    var modes := HasMatchingAccessModes(c.accessModes, st.accessModes);
    if !modes {
      return Some(Invalid);
    }
    if st.resources.Some? && st.resources.value.storage != c.resources.storage {
      return Some(Invalid);
    }
    return None;
  }

  /** ValidateKode: the plugins of the spec are checked one by one. */
  method KodeIsValid(spec: KodeSpec) returns (r: bool)
    ensures r == KodeValid(spec)
  {
    var errors := 0;
    for i := 0 to |spec.initPlugins|
      invariant errors >= 0
      invariant errors == 0 <==> forall j :: 0 <= j < i ==> spec.initPlugins[j].image != ""
    {
      if spec.initPlugins[i].image == "" {
        errors := errors + 1;
      }
    }
    r := errors == 0;
  }

  // ---- the stateful set ----

  lemma {:induction false} PluginsNext(ps: seq<InitPlugin>, i: nat)
    requires i < |ps|
    ensures PluginContainers(ps[..i + 1]) == PluginContainers(ps[..i]) + [PluginContainer(ps[i])]
  {
    if i == 0 {
      assert ps[..1] == [ps[0]] && ps[..0] == [] && ps[..1][1..] == [];
    } else {
      PluginsNext(ps[1..], i - 1);
      assert ps[..i + 1][1..] == ps[1..][..i] && ps[..i][1..] == ps[1..][..i - 1];
    }
  }

  method AppendPlugins(before: seq<Container>, ps: seq<InitPlugin>) returns (r: seq<Container>)
    ensures r == before + PluginContainers(ps)
  {
    r := before;
    for i := 0 to |ps|
      invariant r == before + PluginContainers(ps[..i])
    {
      PluginsNext(ps, i);
      r := r + [PluginContainer(ps[i])];
    }
    assert ps[..|ps|] == ps;
  }

  method ConstructContainer(lib: Lib, cfg: Config) returns (c: Container)
    ensures c == MainContainer(lib, cfg).(mounts := [])
  {
    var t := cfg.template.spec;
    var workspace := lib.join(t.defaultHome, t.defaultWorkspace);
    if cfg.spec.workspace.Some? {
      if cfg.spec.home.Some? {
        workspace := lib.join(cfg.spec.home.value, cfg.spec.workspace.value);
      } else {
        workspace := lib.join(t.defaultHome, cfg.spec.workspace.value);
      }
    }
    var env := [EnvVar("PUID", lib.decimal(t.puid)), EnvVar("PGID", lib.decimal(t.pgid)), EnvVar("TZ", t.timezone)];
    if t.kind == CodeServer {
      env := env + [EnvVar("PORT", lib.decimal(POD_PORT)), EnvVar("USERNAME", cfg.credentials.username),
                    EnvVar("DEFAULT_WORKSPACE", workspace)];
    } else {
      env := env + [EnvVar("CUSTOM_PORT", lib.decimal(POD_PORT)), EnvVar("CUSTOM_USER", cfg.credentials.username)];
    }
    ghost var plain := env;
    if cfg.credentials.builtinAuth && cfg.credentials.password != "" {
      env := env + [EnvVar("PASSWORD", "")];
    }
    assert env == plain + PasswordEnv(cfg);
    c := Container(if t.kind == CodeServer then "code-server" else "webtop", t.image, env, []);
  }

  method ConstructVolumesAndMounts(name: string, cfg: Config) returns (volumes: seq<Volume>, mounts: seq<Mount>)
    ensures volumes == Volumes(name, cfg) && mounts == Mounts(cfg)
  {
    volumes, mounts := [], [];
    var mountPath := cfg.template.spec.defaultHome;
    if cfg.spec.workspace.Some? {
      if cfg.spec.home.Some? {
        mountPath := cfg.spec.home.value;
      }
    }
    if cfg.spec.storage.Some? {
      volumes := volumes + [Volume(STORAGE_VOLUME, ClaimName(name, cfg.spec))];
      mounts := mounts + [Mount(STORAGE_VOLUME, mountPath)];
    }
  }

  method ConstructStatefulSetSpec(lib: Lib, name: string, cfg: Config) returns (r: Outcome<StatefulSet>)
    ensures r == DesiredSet(lib, name, cfg)
  {
    hide MainEnv, PluginContainers, H.Bytes, CreateLabels;
    var t := cfg.template.spec;
    if t.kind == OtherType {
      return Bad(UnknownType);
    }
    var container := ConstructContainer(lib, cfg);
    var volumes, mounts := ConstructVolumesAndMounts(name, cfg);
    container := container.(mounts := mounts);
    var containers := [container] + t.sidecars;
    var inits := AppendPlugins(t.sidecarInits, t.initPlugins);
    inits := AppendPlugins(inits, cfg.spec.initPlugins);
    assert H.PodTemplate(containers, inits, volumes) == PodTemplateOf(lib, name, cfg);
    var digest := H.CalculatePodTemplateHash(lib.sha, containers, inits, volumes);
    r := Ok(StatefulSet(1, cfg.labels, containers, inits, volumes, digest,
                        if t.runtimeClass == "" then None else Some(t.runtimeClass), 0));
  }
}

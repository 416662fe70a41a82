/** What the pod-template hash lets detection see of an edited spec, and what it hides. */
module HashDetection {
  import opened KodeTypes
  import opened Desired
  import H = PodTemplateHash

  function WithPlugin(cfg: Config, p: InitPlugin): Config { cfg.(spec := cfg.spec.(initPlugins := cfg.spec.initPlugins + [p])) }

  function WithStorage(cfg: Config, st: Storage): Config { cfg.(spec := cfg.spec.(storage := Some(st))) }

  /** The stateful set is the one this configuration asks for. */
  predicate BuiltFrom(lib: Lib, name: string, s: StatefulSet, cfg: Config) { Ok(s.(readyReplicas := 0)) == DesiredSet(lib, name, cfg) }

  lemma {:induction false} PluginsAppend(ps: seq<InitPlugin>, p: InitPlugin)
    ensures PluginContainers(ps + [p]) == PluginContainers(ps) + [PluginContainer(p)]
  {
    if ps == [] {
      assert ps + [p] == [p] && [p][1..] == [];
    } else {
      PluginsAppend(ps[1..], p);
      assert (ps + [p])[1..] == ps[1..] + [p];
    }
  }

  /** One more init plugin always changes the bytes, so with a digest that has no collisions the running
      stateful set is reported as outdated. */
  lemma NewPluginIsDetected(lib: Lib, name: string, cfg: Config, s: StatefulSet, p: InitPlugin)
    requires BuiltFrom(lib, name, s, cfg)
    requires forall a, b :: lib.sha(a) == lib.sha(b) ==> a == b
    ensures DesiredSet(lib, name, WithPlugin(cfg, p)).Ok?
    ensures SetSpecDiffers(s, DesiredSet(lib, name, WithPlugin(cfg, p)).value)
  {
    hide H.Bytes, MainEnv, PluginContainers;
    var t, u := PodTemplateOf(lib, name, cfg), PodTemplateOf(lib, name, WithPlugin(cfg, p));
    SameMain(lib, name, cfg, p);
    PluginsAppend(cfg.spec.initPlugins, p);
    assert u.inits == t.inits + [PluginContainer(p)];
    assert PluginContainer(p).name[0] == 'p';
    H.OneMoreInitIsSeen(t, PluginContainer(p));
  }

  lemma SameMain(lib: Lib, name: string, cfg: Config, p: InitPlugin)
    ensures MainContainer(lib, WithPlugin(cfg, p)) == MainContainer(lib, cfg) && Volumes(name, WithPlugin(cfg, p)) == Volumes(name, cfg)
  {
  }

  lemma SameMainStorage(lib: Lib, cfg: Config, st: Storage)
    requires cfg.spec.storage.Some?
    ensures MainContainer(lib, WithStorage(cfg, st)) == MainContainer(lib, cfg)
  {
  }

  lemma NoImageDiffers(cs: seq<Container>)
    ensures !ImagesDiffer(ImagesOf(cs), cs)
  {
  }

  /** Moving the storage to another claim changes the volume but none of the bytes: whatever the digest,
      the stateful set is not reported, and the pods keep the old claim. */
  lemma MovedClaimIsMissed(lib: Lib, name: string, cfg: Config, s: StatefulSet, st: Storage)
    requires BuiltFrom(lib, name, s, cfg) && cfg.spec.storage.Some?
    requires ClaimName(name, WithStorage(cfg, st).spec) != ClaimName(name, cfg.spec)
    ensures var desired := DesiredSet(lib, name, WithStorage(cfg, st));
            desired.Ok? && desired.value.volumes != s.volumes && !SetSpecDiffers(s, desired.value)
  {
    hide MainEnv, PluginContainers, ClaimName;
    var t, u := PodTemplateOf(lib, name, cfg), PodTemplateOf(lib, name, WithStorage(cfg, st));
    var claim := ClaimName(name, WithStorage(cfg, st).spec);
    SameMainStorage(lib, cfg, st);
    assert u == t.(volumes := t.volumes[0 := t.volumes[0].(claim := claim)]);
    H.ClaimNameIsNotSeen(lib.sha, t, 0, claim);
    NoImageDiffers(s.containers);
    hide H.Bytes, ImagesDiffer, ImagesOf;
    assert t.volumes[0].claim != u.volumes[0].claim;
  }
}

/** The operator's work on its children, call by call, in its imperative form: configure_resources.go,
    ensure_*.go, validate_resources.go, check_resources.go and the cleanup manager. Each method is proved
    against the function of the same name in module Resources. */
module ChildResources {
  import opened KodeTypes
  import opened Cluster
  import opened Client
  import D = Desired
  import R = Resources
  import V = Views

  // ---- detectChanges ----

  method DetectSecret(c: ApiClient, kode: KodeObject, cfg: D.Config) returns (out: Outcome<bool>)
    modifies c
    ensures R.Ret(c.State(), out) == R.DetectSecret(c.g, old(c.State()), kode.spec, cfg)
  {
    hide Enter;
    var ok := c.Call();
    if !ok {
      return Bad(Refused);
    }
    var existing := SecretAt(c.world.children, D.SecretName(c.g.name, kode.spec));
    if existing.None? {
      return Ok(true);
    }
    return Ok(existing.value.data != D.DesiredData(cfg.credentials));
  }

  method DetectService(c: ApiClient, cfg: D.Config) returns (out: Outcome<bool>)
    modifies c
    ensures R.Ret(c.State(), out) == R.DetectService(c.g, old(c.State()), cfg)
  {
    hide Enter;
    var ok := c.Call();
    if !ok {
      return Bad(Refused);
    }
    if c.world.children.service.None? {
      return Ok(true);
    }
    var existing, desired := c.world.children.service.value, D.DesiredService(cfg);
    var changed := false;
    if existing.ports != desired.ports {
      changed := true;
    }
    if existing.selector != desired.selector {
      changed := true;
    }
    return Ok(changed);
  }

  /** The loop over the listed pods: those with outdated images are deleted. */
  method DeleteOutdatedPods(c: ApiClient, listed: seq<Pod>, cfg: D.Config, desired: StatefulSet) returns (changed: bool)
    modifies c
    ensures c.State() == R.DeleteOutdated(c.g, old(c.State()), listed, cfg, desired)
    ensures changed == D.AnyOutdated(listed, cfg, desired)
  {
    hide Enter, D.PodOutdated, R.WithoutPod, PutChildren;
    changed := false;
    for i := 0 to |listed|
      invariant R.DeleteOutdated(c.g, old(c.State()), listed, cfg, desired) == R.DeleteOutdated(c.g, c.State(), listed[i..], cfg, desired)
      invariant changed <==> exists j :: 0 <= j < i && D.PodOutdated(listed[j], cfg, desired)
    {
      assert listed[i..][0] == listed[i] && listed[i..][1..] == listed[i + 1..];
      var selected := V.HasRequiredLabels(listed[i].labels, cfg.labels);
      var mismatch := V.ImagesMismatch(listed[i].images, desired.containers);
      assert D.PodOutdated(listed[i], cfg, desired) == (selected && mismatch) by { PodOutdatedIs(listed[i], cfg, desired); }
      if selected && mismatch {
        changed := true;
        var ok := c.Call();
        if ok {
          c.Put(c.world.children.(pods := R.WithoutPod(c.world.children.pods, listed[i].name)), {});
        }
      }
    }
  }

  lemma PodOutdatedIs(p: Pod, cfg: D.Config, desired: StatefulSet)
    ensures D.PodOutdated(p, cfg, desired) == (D.Carries(p.labels, cfg.labels) && D.ImagesDiffer(p.images, desired.containers))
  {
  }

  method DetectSet(c: ApiClient, cfg: D.Config) returns (out: Outcome<bool>)
    modifies c
    ensures R.Ret(c.State(), out) == R.DetectSet(c.g, old(c.State()), cfg)
  {
    hide Enter, D.DesiredSet, D.ImagesDiffer, D.AnyOutdated, R.DeleteOutdated;
    var ok := c.Call();
    if !ok {
      return Bad(Refused);
    }
    if c.world.children.stateful.None? {
      return Ok(true);
    }
    var existing := c.world.children.stateful.value;
    var constructed := V.ConstructStatefulSetSpec(c.g.lib, c.g.name, cfg);
    if constructed.Bad? {
      return Bad(constructed.err);
    }
    var desired := constructed.value;
    var changed := V.ImagesMismatch(D.ImagesOf(existing.containers), desired.containers);
    if existing.templateHash != desired.templateHash {
      changed := true;
    }
    ok := c.Call();
    if !ok {
      return Bad(Refused);
    }
    var outdated := DeleteOutdatedPods(c, c.world.children.pods, cfg, desired);
    return Ok(changed || outdated);
  }

  method DetectClaim(c: ApiClient, kode: KodeObject, cfg: D.Config) returns (out: Outcome<bool>)
    modifies c
    ensures R.Ret(c.State(), out) == R.DetectClaim(c.g, old(c.State()), kode.spec, cfg)
  {
    hide Enter;
    if cfg.spec.storage.None? || cfg.spec.storage.value.existingClaim.Some? {
      return Ok(false);
    }
    var ok := c.Call();
    if !ok {
      return Bad(Refused);
    }
    var found := ClaimAt(c.world.children, D.ClaimName(c.g.name, kode.spec));
    if found.None? {
      return Ok(true);
    }
    var constructed := D.DesiredClaim(cfg.spec.storage.value);
    if constructed.Bad? {
      return Bad(constructed.err);
    }
    var existing, desired := found.value, constructed.value;
    var changed := existing.resources.storage != desired.resources.storage;
    if existing.accessModes != desired.accessModes {
      changed := true;
    }
    if desired.storageClass.Some? {
      if existing.storageClass.None? || existing.storageClass.value != desired.storageClass.value {
        changed := true;
      }
    }
    return Ok(changed);
  }

  method DetectChanges(c: ApiClient, kode: KodeObject, cfg: D.Config) returns (out: Outcome<set<R.Part>>)
    modifies c
    ensures R.Ret(c.State(), out) == R.DetectChanges(c.g, old(c.State()), kode.spec, cfg)
  {
    hide R.DetectSecret, R.DetectService, R.DetectSet, R.DetectClaim, D.StorageIsEmpty;
    var changes: set<R.Part> := {};
    var secret := DetectSecret(c, kode, cfg);
    if secret.Bad? {
      return Bad(secret.err);
    }
    if secret.value {
      changes := changes + {R.SecretPart};
    }
    var service := DetectService(c, cfg);
    if service.Bad? {
      return Bad(service.err);
    }
    if service.value {
      changes := changes + {R.ServicePart};
    }
    var stateful := DetectSet(c, cfg);
    if stateful.Bad? {
      return Bad(stateful.err);
    }
    if stateful.value {
      changes := changes + {R.SetPart};
    }
    ghost var found := R.Mark(R.SecretPart, secret.value) + R.Mark(R.ServicePart, service.value) + R.Mark(R.SetPart, stateful.value);
    assert changes == found;
    if !D.StorageIsEmpty(kode.spec.storage) {
      var claim := DetectClaim(c, kode, cfg);
      if claim.Bad? {
        return Bad(claim.err);
      }
      if claim.value {
        changes := changes + {R.ClaimPart};
      }
      assert changes == found + R.Mark(R.ClaimPart, claim.value);
    }
    return Ok(changes);
  }

  // ---- applyConfiguration ----

  /** ensureSecret; the configuration it leaves may hold the credentials of an existing secret. */
  method EnsureSecret(c: ApiClient, kode: KodeObject, cfg: D.Config) returns (out: Outcome<D.Config>)
    modifies c
    ensures R.Ret(c.State(), out) == R.EnsureSecret(c.g, old(c.State()), kode.spec, cfg)
  {
    hide Enter;
    var name := D.SecretName(c.g.name, kode.spec);
    var ok := c.Call();
    if !ok {
      return Bad(Refused);
    }
    var existing := SecretAt(c.world.children, name);
    if cfg.credentials.existingSecret.Some? {
      if existing.None? {
        return Bad(NotFound);
      }
      var loaded := D.LoadCredentials(existing.value, cfg.credentials);
      if loaded.Bad? {
        return Bad(loaded.err);
      }
      return Ok(cfg.(credentials := loaded.value));
    }
    var secret := Secret(map[], if existing.Some? then existing.value.labels else cfg.labels);
    secret := secret.(data := D.DesiredData(cfg.credentials));
    c.Put(c.world.children.(secrets := c.world.children.secrets[name := secret]), {SecretKey(name)});
    return Ok(cfg);
  }

  method EnsureService(c: ApiClient, cfg: D.Config) returns (out: Outcome<D.Config>)
    modifies c
    ensures R.Ret(c.State(), out) == R.EnsureService(c.g, old(c.State()), cfg)
  {
    hide Enter;
    var ok := c.Call();
    if !ok {
      return Bad(Refused);
    }
    c.Put(c.world.children.(service := Some(D.DesiredService(cfg))), {ServiceKey});
    return Ok(cfg);
  }

  method EnsureStatefulSet(c: ApiClient, cfg: D.Config) returns (out: Outcome<D.Config>)
    modifies c
    ensures R.Ret(c.State(), out) == R.EnsureSet(c.g, old(c.State()), cfg)
  {
    hide Enter, D.DesiredSet;
    var constructed := V.ConstructStatefulSetSpec(c.g.lib, c.g.name, cfg);
    if constructed.Bad? {
      return Bad(constructed.err);
    }
    var ok := c.Call();
    if !ok {
      return Bad(Refused);
    }
    c.Put(c.world.children.(stateful := Some(D.EnsuredSet(c.world.children.stateful, constructed.value))), {SetKey});
    return Ok(cfg);
  }

  method EnsurePersistentVolumeClaim(c: ApiClient, kode: KodeObject, cfg: D.Config) returns (out: Outcome<D.Config>)
    modifies c
    ensures R.Ret(c.State(), out) == R.EnsureClaim(c.g, old(c.State()), kode.spec, cfg)
  {
    hide Enter;
    if cfg.spec.storage.None? || cfg.spec.storage.value.existingClaim.Some? {
      return Ok(cfg);
    }
    var name := D.ClaimName(c.g.name, kode.spec);
    var ok := c.Call();
    if !ok {
      return Bad(Refused);
    }
    var constructed := D.DesiredClaim(cfg.spec.storage.value);
    if constructed.Bad? {
      return Bad(constructed.err);
    }
    var existing := ClaimAt(c.world.children, name);
    var claim := constructed.value;
    if existing.Some? {
      claim := existing.value;
      if claim.resources.storage != constructed.value.resources.storage {
        claim := claim.(resources := constructed.value.resources);
      }
    }
    c.Put(c.world.children.(claims := c.world.children.claims[name := claim]), {ClaimKey(name)});
    return Ok(cfg);
  }

  lemma ApplyStep(g: Setting, y: Sys, spec: KodeSpec, cfg: D.Config, changes: set<R.Part>, order: seq<R.Part>)
    requires order != []
    ensures R.ApplyParts(g, y, spec, cfg, changes, order) ==
            if order[0] !in changes then R.ApplyParts(g, y, spec, cfg, changes, order[1..])
            else
              var r := R.EnsurePart(g, y, spec, cfg, order[0]);
              if r.out.Bad? then r else R.ApplyParts(g, r.y, spec, r.out.value, changes, order[1..])
  {
    hide R.EnsurePart;
  }

  method ApplyConfiguration(c: ApiClient, kode: KodeObject, cfg: D.Config,
                            changes: set<R.Part>) returns (out: Outcome<D.Config>)
    modifies c
    ensures R.Ret(c.State(), out) == R.ApplyConfiguration(c.g, old(c.State()), kode.spec, cfg, changes)
  {
    hide R.EnsureSecret, R.EnsureService, R.EnsureSet, R.EnsureClaim, R.ApplyParts, D.StorageIsEmpty;
    out := Ok(cfg);
    ApplyStep(c.g, c.State(), kode.spec, cfg, changes, R.ORDER);
    if R.SecretPart in changes {
      out := EnsureSecret(c, kode, out.value);
      if out.Bad? {
        return;
      }
    }
    assert R.ORDER[1..] == [R.ServicePart, R.SetPart, R.ClaimPart];
    ApplyStep(c.g, c.State(), kode.spec, out.value, changes, [R.ServicePart, R.SetPart, R.ClaimPart]);
    if R.ServicePart in changes {
      out := EnsureService(c, out.value);
      if out.Bad? {
        return;
      }
    }
    assert [R.ServicePart, R.SetPart, R.ClaimPart][1..] == [R.SetPart, R.ClaimPart];
    ApplyStep(c.g, c.State(), kode.spec, out.value, changes, [R.SetPart, R.ClaimPart]);
    if R.SetPart in changes {
      out := EnsureStatefulSet(c, out.value);
      if out.Bad? {
        return;
      }
    }
    assert [R.SetPart, R.ClaimPart][1..] == [R.ClaimPart];
    ApplyStep(c.g, c.State(), kode.spec, out.value, changes, [R.ClaimPart]);
    if !D.StorageIsEmpty(kode.spec.storage) {
      if R.ClaimPart in changes {
        out := EnsurePersistentVolumeClaim(c, kode, out.value);
        if out.Bad? {
          return;
        }
      }
    }
    assert [R.ClaimPart][1..] == [];
    ApplyDone(c.g, c.State(), kode.spec, out.value, changes);
  }

  lemma ApplyDone(g: Setting, y: Sys, spec: KodeSpec, cfg: D.Config, changes: set<R.Part>)
    ensures R.ApplyParts(g, y, spec, cfg, changes, []) == R.Ret(y, Ok(cfg))
  {
  }

  // ---- validateConfiguration ----

  method ValidateSecret(c: ApiClient, kode: KodeObject, cfg: D.Config) returns (err: Option<Err>)
    modifies c
    ensures Ack(c.State(), err) == R.ValidateSecret(c.g, old(c.State()), kode.spec, cfg)
  {
    hide Enter, D.Carries, D.SecretHasFields;
    var ok := c.Call();
    if !ok {
      return Some(Refused);
    }
    var secret := SecretAt(c.world.children, D.SecretName(c.g.name, kode.spec));
    if secret.None? {
      return Some(NotFound);
    }
    var fields := V.SecretFields(secret.value, kode.spec);
    if !fields {
      return Some(Invalid);
    }
    var labels := V.HasRequiredLabels(secret.value.labels, cfg.labels);
    if !labels {
      return Some(Invalid);
    }
    return None;
  }

  method ValidateService(c: ApiClient, cfg: D.Config) returns (err: Option<Err>)
    modifies c
    ensures Ack(c.State(), err) == R.ValidateService(c.g, old(c.State()), cfg)
  {
    hide Enter, D.ServiceValid;
    var ok := c.Call();
    if !ok {
      return Some(Refused);
    }
    if c.world.children.service.None? {
      return Some(NotFound);
    }
    var valid := V.ServiceIsValid(c.world.children.service.value, cfg);
    return if valid then None else Some(Invalid);
  }

  method ValidateStatefulSet(c: ApiClient, cfg: D.Config) returns (err: Option<Err>)
    modifies c
    ensures Ack(c.State(), err) == R.ValidateSet(c.g, old(c.State()), cfg)
  {
    hide Enter, D.SetValid;
    var ok := c.Call();
    if !ok {
      return Some(Refused);
    }
    if c.world.children.stateful.None? {
      return Some(NotFound);
    }
    var valid := V.SetIsValid(c.world.children.stateful.value, cfg);
    return if valid then None else Some(Invalid);
  }

  method ValidatePVC(c: ApiClient, kode: KodeObject, cfg: D.Config) returns (err: Option<Err>)
    modifies c
    ensures Ack(c.State(), err) == R.ValidatePVC(c.g, old(c.State()), kode.spec, cfg)
  {
    hide Enter, D.ValidateClaim;
    if cfg.spec.storage.None? || cfg.spec.storage.value.existingClaim.Some? {
      return None;
    }
    var ok := c.Call();
    if !ok {
      return Some(Refused);
    }
    var claim := ClaimAt(c.world.children, D.ClaimName(c.g.name, kode.spec));
    if claim.None? {
      return Some(NotFound);
    }
    err := V.ClaimError(claim.value, cfg.spec.storage.value);
  }

  method ValidateConfiguration(c: ApiClient, kode: KodeObject, cfg: D.Config) returns (err: Option<Err>)
    modifies c
    ensures Ack(c.State(), err) == R.ValidateConfiguration(c.g, old(c.State()), kode.spec, cfg)
  {
    hide R.ValidateSecret, R.ValidateService, R.ValidateSet, R.ValidatePVC;
    err := ValidateSecret(c, kode, cfg);
    if err.Some? {
      return;
    }
    err := ValidateService(c, cfg);
    if err.Some? {
      return;
    }
    err := ValidateStatefulSet(c, cfg);
    if err.Some? {
      return;
    }
    err := ValidatePVC(c, kode, cfg);
  }

  // ---- checkResourcesReady ----

  method CheckSecretReady(c: ApiClient, kode: KodeObject) returns (out: Outcome<bool>)
    modifies c
    ensures R.Ret(c.State(), out) == R.SecretReady(c.g, old(c.State()), kode.spec)
  {
    hide Enter, D.SecretHasFields;
    var ok := c.Call();
    if !ok {
      return Bad(Refused);
    }
    var secret := SecretAt(c.world.children, D.SecretName(c.g.name, kode.spec));
    if secret.None? {
      return Ok(false);
    }
    var fields := V.SecretFields(secret.value, kode.spec);
    return Ok(fields);
  }

  method CheckServiceReady(c: ApiClient, cfg: D.Config) returns (out: Outcome<bool>)
    modifies c
    ensures R.Ret(c.State(), out) == R.ServiceReady(c.g, old(c.State()), cfg)
  {
    hide Enter, D.ServiceHasPort;
    var ok := c.Call();
    if !ok {
      return Bad(Refused);
    }
    if c.world.children.service.None? {
      return Ok(false);
    }
    var port := V.HasPort(c.world.children.service.value, cfg);
    return Ok(port);
  }

  method CheckStatefulSetReady(c: ApiClient) returns (out: Outcome<bool>)
    modifies c
    ensures R.Ret(c.State(), out) == R.SetReady(c.g, old(c.State()))
  {
    hide Enter;
    var ok := c.Call();
    if !ok {
      return Bad(Refused);
    }
    if c.world.children.stateful.None? {
      return Ok(false);
    }
    return Ok(c.world.children.stateful.value.readyReplicas == c.world.children.stateful.value.replicas);
  }

  method CheckPVCReady(c: ApiClient, kode: KodeObject) returns (out: Outcome<bool>)
    modifies c
    ensures R.Ret(c.State(), out) == R.PVCReady(c.g, old(c.State()), kode.spec)
  {
    hide Enter;
    if kode.spec.storage.None? {
      return Ok(true);
    }
    if kode.spec.storage.value.existingClaim.Some? {
      return Ok(true);
    }
    var ok := c.Call();
    if !ok {
      return Bad(Refused);
    }
    var claim := ClaimAt(c.world.children, D.ClaimName(c.g.name, kode.spec));
    return Ok(claim.Some? && claim.value.bound);
  }

  method CheckPodsReady(c: ApiClient, cfg: D.Config) returns (out: Outcome<bool>)
    modifies c
    ensures R.Ret(c.State(), out) == R.ListedPodsReady(c.g, old(c.State()), cfg)
  {
    hide Enter, D.PodsReady;
    var ok := c.Call();
    if !ok {
      return Bad(Refused);
    }
    var ready := V.CheckPods(c.world.children.pods, cfg.labels);
    return Ok(ready);
  }

  /** One entry of the list of checks. */
  method RunCheck(c: ApiClient, kode: KodeObject, cfg: D.Config, check: R.Check) returns (out: Outcome<bool>)
    modifies c
    ensures R.Ret(c.State(), out) == R.RunCheck(c.g, old(c.State()), kode.spec, cfg, check)
  {
    hide R.SecretReady, R.ServiceReady, R.SetReady, R.PVCReady, R.ListedPodsReady;
    match check {
      case CheckSecret => out := CheckSecretReady(c, kode);
      case CheckService => out := CheckServiceReady(c, cfg);
      case CheckSet => out := CheckStatefulSetReady(c);
      case CheckPVC => out := CheckPVCReady(c, kode);
      case CheckPods => out := CheckPodsReady(c, cfg);
    }
  }

  method CheckResourcesReady(c: ApiClient, kode: KodeObject, cfg: D.Config) returns (out: Outcome<bool>)
    modifies c
    ensures R.Ret(c.State(), out) == R.CheckResourcesReady(c.g, old(c.State()), kode.spec, cfg)
  {
    hide R.RunCheck;
    var checks := R.CHECKS;
    for i := 0 to |checks|
      invariant R.CheckResourcesReady(c.g, old(c.State()), kode.spec, cfg) == R.RunChecks(c.g, c.State(), kode.spec, cfg, checks[i..])
    {
      assert checks[i..][0] == checks[i] && checks[i..][1..] == checks[i + 1..];
      out := RunCheck(c, kode, cfg, checks[i]);
      if out.Bad? || !out.value {
        return;
      }
    }
    return Ok(true);
  }

  // ---- deletion ----

  method CheckResourcesDeleted(c: ApiClient, kode: KodeObject) returns (out: Outcome<bool>)
    modifies c
    ensures R.Ret(c.State(), out) == R.CheckResourcesDeleted(c.g, old(c.State()), kode.spec)
  {
    hide Enter, Exists, R.RequiredAbsent;
    var keys := R.RequiredAbsent(c.g, kode.spec);
    for i := 0 to |keys|
      invariant R.CheckAbsent(c.g, old(c.State()), keys) == R.CheckAbsent(c.g, c.State(), keys[i..])
    {
      assert keys[i..][0] == keys[i] && keys[i..][1..] == keys[i + 1..];
      var ok := c.Call();
      if !ok {
        return Bad(Refused);
      }
      if Exists(c.world.children, keys[i]) {
        return Ok(false);
      }
    }
    return Ok(true);
  }

  /** GetResources: the claim is appended only when the operator made it. */
  method GetResources(name: string, spec: KodeSpec) returns (keys: seq<Key>)
    ensures forall g: Setting :: g.name == name ==> keys == R.CleanupKeys(g, spec)
  {
    keys := [SetKey, ServiceKey, SecretKey(D.SecretName(name, spec))];
    if spec.storage.Some? && spec.storage.value.existingClaim.None? {
      keys := keys + [ClaimKey(D.ClaimName(name, spec))];
    }
  }

  method CleanupChildren(c: ApiClient, kode: KodeObject) returns (out: Outcome<Result>)
    modifies c
    ensures R.Ret(c.State(), out) == R.Cleanup(c.g, old(c.State()), kode.spec)
  {
    hide Enter, Terminate, R.CleanupKeys, R.ShouldDelete, PutChildren;
    var resources := GetResources(c.g.name, kode.spec);
    var deletionInitiated := false;
    for i := 0 to |resources|
      invariant R.DeleteKeys(c.g, old(c.State()), kode.spec, resources, false)
             == R.DeleteKeys(c.g, c.State(), kode.spec, resources[i..], deletionInitiated)
    {
      assert resources[i..][0] == resources[i] && resources[i..][1..] == resources[i + 1..];
      if R.ShouldDelete(kode.spec, resources[i]) {
        var ok := c.Call();
        if !ok {
          return Bad(Refused);
        }
        c.Put(Terminate(c.world.children, resources[i]), {});
        deletionInitiated := true;
      }
    }
    return Ok(if deletionInitiated then Result(false, 1) else NO_REQUEUE);
  }
}

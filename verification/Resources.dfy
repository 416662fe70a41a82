/** The operator's work on its children as functions of the cluster: detectChanges, applyConfiguration,
    validateConfiguration, checkResourcesReady, checkResourcesDeleted and Cleanup, call by call. */
module Resources {
  import opened KodeTypes
  import opened Cluster
  import opened Desired

  datatype Ret<+A> = Ret(y: Sys, out: Outcome<A>)

  datatype Part = SecretPart | ServicePart | SetPart | ClaimPart

  // ---- detectChanges ----

  function DetectSecret(g: Setting, y: Sys, spec: KodeSpec, cfg: Config): Ret<bool> {
    var z := Enter(g, y);
    if !Up(g, y) then Ret(z, Bad(Refused))
    else Ret(z, Ok(SecretStale(SecretAt(z.w.children, SecretName(g.name, spec)), cfg)))
  }

  function DetectService(g: Setting, y: Sys, cfg: Config): Ret<bool> {
    var z := Enter(g, y);
    if !Up(g, y) then Ret(z, Bad(Refused))
    else Ret(z, Ok(ServiceStale(z.w.children.service, cfg)))
  }

  function WithoutPod(pods: seq<Pod>, name: string): seq<Pod> {
    if pods == [] then []
    else if pods[0].name == name then WithoutPod(pods[1..], name)
    else [pods[0]] + WithoutPod(pods[1..], name)
  }

  /** The listed pods with outdated images are deleted one by one; failures are only logged. */
  function DeleteOutdated(g: Setting, y: Sys, listed: seq<Pod>, cfg: Config, desired: StatefulSet): Sys
    decreases |listed|
  {
    if listed == [] then y
    else if !PodOutdated(listed[0], cfg, desired) then DeleteOutdated(g, y, listed[1..], cfg, desired)
    else
      var z := Enter(g, y);
      var c := z.w.children;
      var next := if Up(g, y) then PutChildren(z, c.(pods := WithoutPod(c.pods, listed[0].name)), {}) else z;
      DeleteOutdated(g, next, listed[1..], cfg, desired)
  }

  function DetectSet(g: Setting, y: Sys, cfg: Config): Ret<bool> {
    var z := Enter(g, y);
    if !Up(g, y) then Ret(z, Bad(Refused))
    else if z.w.children.stateful.None? then Ret(z, Ok(true))
    else match DesiredSet(g.lib, g.name, cfg)
      case Bad(e) => Ret(z, Bad(e))
      case Ok(desired) =>
        var v := Enter(g, z);
        if !Up(g, z) then Ret(v, Bad(Refused))
        else
          var pods := v.w.children.pods;
          Ret(DeleteOutdated(g, v, pods, cfg, desired),
              Ok(SetSpecDiffers(z.w.children.stateful.value, desired) || AnyOutdated(pods, cfg, desired)))
  }

  function DetectClaim(g: Setting, y: Sys, spec: KodeSpec, cfg: Config): Ret<bool> {
    if cfg.spec.storage.None? || cfg.spec.storage.value.existingClaim.Some? then Ret(y, Ok(false))
    else
      var z := Enter(g, y);
      if !Up(g, y) then Ret(z, Bad(Refused))
      else
        var c := ClaimAt(z.w.children, ClaimName(g.name, spec));
        if c.None? then Ret(z, Ok(true))
        else match DesiredClaim(cfg.spec.storage.value)
          case Bad(e) => Ret(z, Bad(e))
          case Ok(desired) => Ret(z, Ok(ClaimDiffers(c.value, desired)))
  }

  function Mark(p: Part, stale: bool): set<Part> { if stale then {p} else {} }

  function DetectChanges(g: Setting, y: Sys, spec: KodeSpec, cfg: Config): Ret<set<Part>> {
    var a := DetectSecret(g, y, spec, cfg);
    if a.out.Bad? then Ret(a.y, Bad(a.out.err))
    else
      var b := DetectService(g, a.y, cfg);
      if b.out.Bad? then Ret(b.y, Bad(b.out.err))
      else
        var c := DetectSet(g, b.y, cfg);
        if c.out.Bad? then Ret(c.y, Bad(c.out.err))
        else
          var found := Mark(SecretPart, a.out.value) + Mark(ServicePart, b.out.value) + Mark(SetPart, c.out.value);
          if StorageIsEmpty(spec.storage) then Ret(c.y, Ok(found))
          else
            var d := DetectClaim(g, c.y, spec, cfg);
            if d.out.Bad? then Ret(d.y, Bad(d.out.err))
            else Ret(d.y, Ok(found + Mark(ClaimPart, d.out.value)))
  }

  // ---- applyConfiguration; the config it works with may gain the credentials of an existing secret ----

  function EnsureSecret(g: Setting, y: Sys, spec: KodeSpec, cfg: Config): Ret<Config> {
    var z := Enter(g, y);
    var n := SecretName(g.name, spec);
    var s := SecretAt(z.w.children, n);
    if !Up(g, y) then Ret(z, Bad(Refused))
    else if cfg.credentials.existingSecret.Some? then
      if s.None? then Ret(z, Bad(NotFound))
      else match LoadCredentials(s.value, cfg.credentials)
        case Bad(e) => Ret(z, Bad(e))
        case Ok(c) => Ret(z, Ok(cfg.(credentials := c)))
    else
      var c := z.w.children;
      Ret(PutChildren(z, c.(secrets := c.secrets[n := EnsuredSecret(s, cfg)]), {SecretKey(n)}), Ok(cfg))
  }

  function EnsureService(g: Setting, y: Sys, cfg: Config): Ret<Config> {
    var z := Enter(g, y);
    if !Up(g, y) then Ret(z, Bad(Refused))
    else Ret(PutChildren(z, z.w.children.(service := Some(DesiredService(cfg))), {ServiceKey}), Ok(cfg))
  }

  function EnsureSet(g: Setting, y: Sys, cfg: Config): Ret<Config> {
    match DesiredSet(g.lib, g.name, cfg)
    case Bad(e) => Ret(y, Bad(e))
    case Ok(desired) =>
      var z := Enter(g, y);
      var c := z.w.children;
      if !Up(g, y) then Ret(z, Bad(Refused))
      else Ret(PutChildren(z, c.(stateful := Some(EnsuredSet(c.stateful, desired))), {SetKey}), Ok(cfg))
  }

  function EnsureClaim(g: Setting, y: Sys, spec: KodeSpec, cfg: Config): Ret<Config> {
    if cfg.spec.storage.None? || cfg.spec.storage.value.existingClaim.Some? then Ret(y, Ok(cfg))
    else
      var z := Enter(g, y);
      if !Up(g, y) then Ret(z, Bad(Refused))
      else match DesiredClaim(cfg.spec.storage.value)
        case Bad(e) => Ret(z, Bad(e))
        case Ok(desired) =>
          var c := z.w.children;
          var n := ClaimName(g.name, spec);
          Ret(PutChildren(z, c.(claims := c.claims[n := EnsuredClaim(ClaimAt(c, n), desired)]), {ClaimKey(n)}), Ok(cfg))
  }

  function EnsurePart(g: Setting, y: Sys, spec: KodeSpec, cfg: Config, p: Part): Ret<Config> {
    match p
    case SecretPart => EnsureSecret(g, y, spec, cfg)
    case ServicePart => EnsureService(g, y, cfg)
    case SetPart => EnsureSet(g, y, cfg)
    case ClaimPart => if StorageIsEmpty(spec.storage) then Ret(y, Ok(cfg)) else EnsureClaim(g, y, spec, cfg)
  }

  const ORDER: seq<Part> := [SecretPart, ServicePart, SetPart, ClaimPart]

  /** The parts of `order` that are in `changes`, in order, up to the first failure. */
  function ApplyParts(g: Setting, y: Sys, spec: KodeSpec, cfg: Config, changes: set<Part>, order: seq<Part>): Ret<Config>
    decreases |order|
  {
    if order == [] then Ret(y, Ok(cfg))
    else if order[0] !in changes then ApplyParts(g, y, spec, cfg, changes, order[1..])
    else
      var r := EnsurePart(g, y, spec, cfg, order[0]);
      if r.out.Bad? then r else ApplyParts(g, r.y, spec, r.out.value, changes, order[1..])
  }

  function ApplyConfiguration(g: Setting, y: Sys, spec: KodeSpec, cfg: Config, changes: set<Part>): Ret<Config> {
    ApplyParts(g, y, spec, cfg, changes, ORDER)
  }

  // ---- validateConfiguration ----

  function ValidateSecret(g: Setting, y: Sys, spec: KodeSpec, cfg: Config): Ack {
    var z := Enter(g, y);
    var s := SecretAt(z.w.children, SecretName(g.name, spec));
    if !Up(g, y) then Ack(z, Some(Refused))
    else if s.None? then Ack(z, Some(NotFound))
    else Ack(z, if SecretValid(s.value, spec, cfg) then None else Some(Invalid))
  }

  function ValidateService(g: Setting, y: Sys, cfg: Config): Ack {
    var z := Enter(g, y);
    var s := z.w.children.service;
    if !Up(g, y) then Ack(z, Some(Refused))
    else if s.None? then Ack(z, Some(NotFound))
    else Ack(z, if ServiceValid(s.value, cfg) then None else Some(Invalid))
  }

  function ValidateSet(g: Setting, y: Sys, cfg: Config): Ack {
    var z := Enter(g, y);
    var s := z.w.children.stateful;
    if !Up(g, y) then Ack(z, Some(Refused))
    else if s.None? then Ack(z, Some(NotFound))
    else Ack(z, if SetValid(s.value, cfg) then None else Some(Invalid))
  }

  function ValidatePVC(g: Setting, y: Sys, spec: KodeSpec, cfg: Config): Ack {
    if cfg.spec.storage.None? || cfg.spec.storage.value.existingClaim.Some? then Ack(y, None)
    else
      var z := Enter(g, y);
      var c := ClaimAt(z.w.children, ClaimName(g.name, spec));
      if !Up(g, y) then Ack(z, Some(Refused))
      else if c.None? then Ack(z, Some(NotFound))
      else Ack(z, Desired.ValidateClaim(c.value, cfg.spec.storage.value))
  }

  function ValidateConfiguration(g: Setting, y: Sys, spec: KodeSpec, cfg: Config): Ack {
    var a := ValidateSecret(g, y, spec, cfg);
    if a.err.Some? then a
    else
      var b := ValidateService(g, a.y, cfg);
      if b.err.Some? then b
      else
        var c := ValidateSet(g, b.y, cfg);
        if c.err.Some? then c else ValidatePVC(g, c.y, spec, cfg)
  }

  // ---- checkResourcesReady ----

  function SecretReady(g: Setting, y: Sys, spec: KodeSpec): Ret<bool> {
    var z := Enter(g, y);
    var s := SecretAt(z.w.children, SecretName(g.name, spec));
    if !Up(g, y) then Ret(z, Bad(Refused))
    else Ret(z, Ok(s.Some? && SecretHasFields(s.value, spec)))
  }

  function ServiceReady(g: Setting, y: Sys, cfg: Config): Ret<bool> {
    var z := Enter(g, y);
    var s := z.w.children.service;
    if !Up(g, y) then Ret(z, Bad(Refused)) else Ret(z, Ok(s.Some? && ServiceHasPort(s.value, cfg)))
  }

  function SetReady(g: Setting, y: Sys): Ret<bool> {
    var z := Enter(g, y);
    var s := z.w.children.stateful;
    if !Up(g, y) then Ret(z, Bad(Refused))
    else if s.None? then Ret(z, Ok(false))
    else Ret(z, Ok(s.value.readyReplicas == s.value.replicas))
  }

  function PVCReady(g: Setting, y: Sys, spec: KodeSpec): Ret<bool> {
    if !ManagesClaim(spec) then Ret(y, Ok(true))
    else
      var z := Enter(g, y);
      var c := ClaimAt(z.w.children, ClaimName(g.name, spec));
      if !Up(g, y) then Ret(z, Bad(Refused)) else Ret(z, Ok(c.Some? && c.value.bound))
  }

  function ListedPodsReady(g: Setting, y: Sys, cfg: Config): Ret<bool> {
    var z := Enter(g, y);
    if !Up(g, y) then Ret(z, Bad(Refused)) else Ret(z, Ok(PodsReady(z.w.children.pods, cfg.labels)))
  }

  datatype Check = CheckSecret | CheckService | CheckSet | CheckPVC | CheckPods

  /** ComposeResourceChecks. */
  const CHECKS: seq<Check> := [CheckSecret, CheckService, CheckSet, CheckPVC, CheckPods]

  function RunCheck(g: Setting, y: Sys, spec: KodeSpec, cfg: Config, c: Check): Ret<bool> {
    match c
    case CheckSecret => SecretReady(g, y, spec)
    case CheckService => ServiceReady(g, y, cfg)
    case CheckSet => SetReady(g, y)
    case CheckPVC => PVCReady(g, y, spec)
    case CheckPods => ListedPodsReady(g, y, cfg)
  }

  function RunChecks(g: Setting, y: Sys, spec: KodeSpec, cfg: Config, checks: seq<Check>): Ret<bool>
    decreases |checks|
  {
    if checks == [] then Ret(y, Ok(true))
    else
      var r := RunCheck(g, y, spec, cfg, checks[0]);
      if r.out.Bad? || !r.out.value then r else RunChecks(g, r.y, spec, cfg, checks[1..])
  }

  function CheckResourcesReady(g: Setting, y: Sys, spec: KodeSpec, cfg: Config): Ret<bool> {
    RunChecks(g, y, spec, cfg, CHECKS)
  }

  // ---- deletion ----

  /** What checkResourcesDeleted requires to be absent, in its order. */
  function RequiredAbsent(g: Setting, spec: KodeSpec): seq<Key> {
    [SetKey, SecretKey(SecretName(g.name, spec)), ServiceKey]
    + (if g.testMode || !ManagesClaim(spec) then [] else [ClaimKey(ClaimName(g.name, spec))])
  }

  function CheckAbsent(g: Setting, y: Sys, keys: seq<Key>): Ret<bool>
    decreases |keys|
  {
    if keys == [] then Ret(y, Ok(true))
    else
      var z := Enter(g, y);
      if !Up(g, y) then Ret(z, Bad(Refused))
      else if Exists(z.w.children, keys[0]) then Ret(z, Ok(false))
      else CheckAbsent(g, z, keys[1..])
  }

  function CheckResourcesDeleted(g: Setting, y: Sys, spec: KodeSpec): Ret<bool> {
    CheckAbsent(g, y, RequiredAbsent(g, spec))
  }

  /** GetResources of KodeCleanupResource. */
  function CleanupKeys(g: Setting, spec: KodeSpec): seq<Key> {
    [SetKey, ServiceKey, SecretKey(SecretName(g.name, spec))]
    + (if ManagesClaim(spec) then [ClaimKey(ClaimName(g.name, spec))] else [])
  }

  predicate KeepsVolume(spec: KodeSpec) { spec.storage.Some? && spec.storage.value.keepVolume == Some(true) }

  /** ShouldDelete of KodeCleanupResource. */
  predicate ShouldDelete(spec: KodeSpec, key: Key) { !(KeepsVolume(spec) && key.ClaimKey?) }

  function DeleteKeys(g: Setting, y: Sys, spec: KodeSpec, keys: seq<Key>, initiated: bool): Ret<bool>
    decreases |keys|
  {
    if keys == [] then Ret(y, Ok(initiated))
    else if !ShouldDelete(spec, keys[0]) then DeleteKeys(g, y, spec, keys[1..], initiated)
    else
      var z := Enter(g, y);
      if !Up(g, y) then Ret(z, Bad(Refused))
      else DeleteKeys(g, PutChildren(z, Terminate(z.w.children, keys[0]), {}), spec, keys[1..], true)
  }

  /** Cleanup of the cleanup manager: deleting what is already gone counts as initiated too. */
  function Cleanup(g: Setting, y: Sys, spec: KodeSpec): Ret<Result> {
    var r := DeleteKeys(g, y, spec, CleanupKeys(g, spec), false);
    if r.out.Bad? then Ret(r.y, Bad(r.out.err))
    else Ret(r.y, Ok(if r.out.value then Result(false, 1) else NO_REQUEUE))
  }
}

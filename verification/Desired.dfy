/** What the operator wants its children to be, and how each of its four views of a child (detect,
    ensure, validate, ready check) reads one: the constructors of internal/controllers/kode/ensure_*.go
    and config.go, and the comparisons of configure_resources.go, validate_resources.go and
    check_resources.go, all on values. */
module Desired {
  import opened KodeTypes
  import H = PodTemplateHash

  /** path.Join, decimal formatting and the hex digest. */
  datatype Lib = Lib(join: (string, string) -> string, decimal: int -> string, sha: string -> string)

  /** KodeResourceConfig: its KodeSpec, UserInitPlugins and Port are those of `spec` and `template`. */
  datatype Config = Config(labels: Labels, spec: KodeSpec, credentials: Credentials, template: Template)

  const DEFAULT_USERNAME := "abc"
  const MANAGER := "kode-operator"
  const STORAGE_VOLUME := "kode-storage"
  const POD_PORT := 3000

  // ---- names ----

  function ExistingSecret(spec: KodeSpec): Option<string> {
    if spec.credentials.Some? then spec.credentials.value.existingSecret else None
  }

  function OwnSecretName(name: string): string { name + "-auth" }

  /** GetSecretName. */
  function SecretName(name: string, spec: KodeSpec): string {
    if ExistingSecret(spec).Some? then ExistingSecret(spec).value else OwnSecretName(name)
  }

  function ServiceName(name: string): string { name + "-svc" }

  function OwnClaimName(name: string): string { name + "-pvc" }

  /** GetPVCName. */
  function ClaimName(name: string, spec: KodeSpec): string {
    if spec.storage.Some? && spec.storage.value.existingClaim.Some?
    then spec.storage.value.existingClaim.value else OwnClaimName(name)
  }

  /** IsEmpty of KodeStorageSpec. */
  predicate StorageIsEmpty(s: Option<Storage>) {
    s.None? ||
    (|s.value.accessModes| == 0 && s.value.storageClass.None? && s.value.existingClaim.None? &&
     (s.value.resources.None? || s.value.resources.value.storage == 0))
  }

  /** Storage is set and the operator makes the claim itself. */
  predicate ManagesClaim(spec: KodeSpec) { spec.storage.Some? && spec.storage.value.existingClaim.None? }

  // ---- config ----

  /** createLabels. */
  function CreateLabels(name: string, template: Template): Labels {
    map[AppName := name, ManagedBy := MANAGER, KodeName := name, TemplateName := template.name]
  }

  /** InitKodeResourcesConfig. */
  function InitConfig(name: string, spec: KodeSpec, template: Template): Config {
    Config(CreateLabels(name, template), spec,
           if spec.credentials.Some? then spec.credentials.value else Credentials(DEFAULT_USERNAME, "", None, false),
           template)
  }

  predicate Carries(actual: Labels, required: Labels) {
    forall k :: k in required ==> k in actual && actual[k] == required[k]
  }

  // ---- secret ----

  function DesiredData(c: Credentials): map<DataKey, string> {
    map[Username := c.username, Password := c.password]
  }

  predicate SecretStale(s: Option<Secret>, cfg: Config) {
    s.None? || s.value.data != DesiredData(cfg.credentials)
  }

  /** The secret after ensureSecret's CreateOrPatch: labels are given on creation only. */
  function EnsuredSecret(s: Option<Secret>, cfg: Config): Secret {
    Secret(DesiredData(cfg.credentials), if s.Some? then s.value.labels else cfg.labels)
  }

  predicate BuiltinAuth(spec: KodeSpec) { spec.credentials.Some? && spec.credentials.value.builtinAuth }

  /** checkSecretReady on an existing secret, and the fields part of validateSecret. */
  predicate SecretHasFields(s: Secret, spec: KodeSpec) {
    Username in s.data && (BuiltinAuth(spec) ==> Password in s.data)
  }

  predicate SecretValid(s: Secret, spec: KodeSpec, cfg: Config) {
    SecretHasFields(s, spec) && Carries(s.labels, cfg.labels)
  }

  /** GetUsernameAndPasswordFromSecret. */
  function LoadCredentials(s: Secret, c: Credentials): Outcome<Credentials> {
    if Username !in s.data || s.data[Username] == "" then Bad(Invalid)
    else Ok(c.(username := s.data[Username], password := if Password in s.data then s.data[Password] else ""))
  }

  // ---- service ----

  function DesiredService(cfg: Config): Service {
    Service([ServicePort(TCP, cfg.template.spec.port, cfg.template.spec.port)], cfg.labels)
  }

  predicate ServiceStale(s: Option<Service>, cfg: Config) {
    s.None? || s.value.ports != DesiredService(cfg).ports || s.value.selector != DesiredService(cfg).selector
  }

  /** checkServiceReady on an existing service. */
  predicate ServiceHasPort(s: Service, cfg: Config) {
    exists i :: 0 <= i < |s.ports| && s.ports[i].port == cfg.template.spec.port
  }

  predicate ServiceValid(s: Service, cfg: Config) { ServiceHasPort(s, cfg) && Carries(s.selector, cfg.labels) }

  // ---- stateful set ----

  function Workspace(lib: Lib, cfg: Config): string {
    var t := cfg.template.spec;
    if cfg.spec.workspace.None? then lib.join(t.defaultHome, t.defaultWorkspace)
    else if cfg.spec.home.Some? then lib.join(cfg.spec.home.value, cfg.spec.workspace.value)
    else lib.join(t.defaultHome, cfg.spec.workspace.value)
  }

  /** Home counts only when a workspace is given with it. */
  function MountPath(cfg: Config): string {
    if cfg.spec.workspace.Some? && cfg.spec.home.Some? then cfg.spec.home.value else cfg.template.spec.defaultHome
  }

  /** The password reaches the container by reference, so its value is empty here. */
  function PasswordEnv(cfg: Config): seq<EnvVar> {
    if cfg.credentials.builtinAuth && cfg.credentials.password != "" then [EnvVar("PASSWORD", "")] else []
  }

  function MainEnv(lib: Lib, cfg: Config): seq<EnvVar> {
    var t := cfg.template.spec;
    var common := [EnvVar("PUID", lib.decimal(t.puid)), EnvVar("PGID", lib.decimal(t.pgid)), EnvVar("TZ", t.timezone)];
    if t.kind == CodeServer then
      common + [EnvVar("PORT", lib.decimal(POD_PORT)), EnvVar("USERNAME", cfg.credentials.username),
                EnvVar("DEFAULT_WORKSPACE", Workspace(lib, cfg))] + PasswordEnv(cfg)
    else
      common + [EnvVar("CUSTOM_PORT", lib.decimal(POD_PORT)), EnvVar("CUSTOM_USER", cfg.credentials.username)]
      + PasswordEnv(cfg)
  }

  /** constructVolumesAndMounts. */
  function Volumes(name: string, cfg: Config): seq<Volume> {
    if cfg.spec.storage.Some? then [Volume(STORAGE_VOLUME, ClaimName(name, cfg.spec))] else []
  }

  function Mounts(cfg: Config): seq<Mount> {
    if cfg.spec.storage.Some? then [Mount(STORAGE_VOLUME, MountPath(cfg))] else []
  }

  function MainContainer(lib: Lib, cfg: Config): Container {
    var t := cfg.template.spec;
    Container(if t.kind == CodeServer then "code-server" else "webtop", t.image, MainEnv(lib, cfg), Mounts(cfg))
  }

  function PluginContainer(p: InitPlugin): Container { Container("plugin-" + p.name, p.image, [], []) }

  function PluginContainers(ps: seq<InitPlugin>): seq<Container> {
    if ps == [] then [] else [PluginContainer(ps[0])] + PluginContainers(ps[1..])
  }

  function PodTemplateOf(lib: Lib, name: string, cfg: Config): H.PodTemplate {
    var t := cfg.template.spec;
    H.PodTemplate(
      [MainContainer(lib, cfg)] + t.sidecars,
      t.sidecarInits + PluginContainers(t.initPlugins) + PluginContainers(cfg.spec.initPlugins),
      Volumes(name, cfg))
  }

  /** constructStatefulSetSpec. */
  function DesiredSet(lib: Lib, name: string, cfg: Config): Outcome<StatefulSet> {
    if cfg.template.spec.kind == OtherType then Bad(UnknownType)
    else
      var p := PodTemplateOf(lib, name, cfg);
      var runtime := cfg.template.spec.runtimeClass;
      Ok(StatefulSet(1, cfg.labels, p.containers, p.inits, p.volumes, lib.sha(H.Bytes(p)),
                     if runtime == "" then None else Some(runtime), 0))
  }

  /** The whole spec is replaced; the status is not. */
  function EnsuredSet(s: Option<StatefulSet>, desired: StatefulSet): StatefulSet {
    desired.(readyReplicas := if s.Some? then s.value.readyReplicas else 0)
  }

  predicate ImagesDiffer(images: seq<string>, desired: seq<Container>) {
    exists i :: 0 <= i < |images| && i < |desired| && images[i] != desired[i].image
  }

  function ImagesOf(cs: seq<Container>): (r: seq<string>)
    ensures |r| == |cs| && forall i :: 0 <= i < |cs| ==> r[i] == cs[i].image
  {
    if cs == [] then [] else [cs[0].image] + ImagesOf(cs[1..])
  }

  predicate SetSpecDiffers(s: StatefulSet, desired: StatefulSet) {
    ImagesDiffer(ImagesOf(s.containers), desired.containers) || s.templateHash != desired.templateHash
  }

  /** A pod that the label selector lists and whose images are not the desired ones. */
  predicate PodOutdated(p: Pod, cfg: Config, desired: StatefulSet) {
    Carries(p.labels, cfg.labels) && ImagesDiffer(p.images, desired.containers)
  }

  predicate AnyOutdated(pods: seq<Pod>, cfg: Config, desired: StatefulSet) {
    exists i :: 0 <= i < |pods| && PodOutdated(pods[i], cfg, desired)
  }

  predicate SetValid(s: StatefulSet, cfg: Config) {
    && s.replicas == 1
    && |s.containers| > 0
    && s.containers[0].image == cfg.template.spec.image
    && (cfg.spec.storage.Some? ==> exists i :: 0 <= i < |s.containers[0].mounts| && s.containers[0].mounts[i].name == STORAGE_VOLUME)
  }

  // ---- claim ----

  /** constructPVCSpec dereferences the resources. */
  function DesiredClaim(st: Storage): Outcome<Claim> {
    if st.resources.None? then Bad(NilPointer)
    else Ok(Claim(st.accessModes, st.storageClass, st.resources.value, false))
  }

  predicate ClaimDiffers(c: Claim, desired: Claim) {
    || c.resources.storage != desired.resources.storage
    || ImmutablePartDiffers(c, desired)
  }

  /** The part of the comparison that ensurePersistentVolumeClaim never repairs. */
  predicate ImmutablePartDiffers(c: Claim, desired: Claim) {
    || c.accessModes != desired.accessModes
    || (desired.storageClass.Some? && c.storageClass != desired.storageClass)
  }

  function EnsuredClaim(c: Option<Claim>, desired: Claim): Claim {
    if c.None? then desired
    else if c.value.resources.storage != desired.resources.storage then c.value.(resources := desired.resources)
    else c.value
  }

  /** hasMatchingAccessModes. */
  predicate MatchingModes(actual: seq<AccessMode>, required: seq<AccessMode>) {
    |actual| == |required| && forall m :: m in required ==> m in actual
  }

  /** validatePVC on an existing claim; its error message dereferences the claim's class. */
  function ValidateClaim(c: Claim, st: Storage): Option<Err> {
    if st.storageClass.Some? && c.storageClass.None? then Some(NilPointer)
    else if st.storageClass.Some? && c.storageClass != st.storageClass then Some(Invalid)
    else if !MatchingModes(c.accessModes, st.accessModes) then Some(Invalid)
    else if st.resources.Some? && st.resources.value.storage != c.resources.storage then Some(Invalid)
    else None
  }

  // ---- pods ----

  /** isPodReady: the first condition of type Ready decides. */
  predicate PodReady(cs: seq<PodCondition>) {
    cs != [] && (if cs[0].isReadyType then cs[0].isTrue else PodReady(cs[1..]))
  }

  predicate PodUp(p: Pod) { p.running && PodReady(p.conditions) }

  /** checkPodsReady on the listed pods: some pod is listed and all that are, are up. */
  predicate PodsReady(pods: seq<Pod>, labels: Labels) {
    && (exists i :: 0 <= i < |pods| && Carries(pods[i].labels, labels))
    && (forall i :: 0 <= i < |pods| && Carries(pods[i].labels, labels) ==> PodUp(pods[i]))
  }

  // ---- validation of the Kode itself ----

  /** ValidateKode of pkg/validation/kode.go. */
  predicate KodeValid(spec: KodeSpec) {
    forall i :: 0 <= i < |spec.initPlugins| ==> spec.initPlugins[i].image != ""
  }
}

/** The API objects the operator reads and writes: api/v1alpha2 and the parts of
    the Kubernetes core objects that some modelled branch looks at. */
module KodeTypes {

  datatype Option<+T> = None | Some(value: T)

  /** Why a call or a check failed. `NilPointer` is a nil dereference: it unwinds
      the reconcile without running any error handling. */
  datatype Err =
    | Refused          // the client call failed
    | NotFound
    | NilPointer
    | Invalid          // the Kode, or one of its children, did not validate
    | UnknownKind
    | UnknownType
    | BadReference
    | TemplateMissing  // TemplateNotFoundError, which the API error predicates do not recognise
    | NoHandler
    | BadRouting

  datatype Outcome<+T> = Ok(value: T) | Bad(err: Err)

  // ---- Kode ----

  datatype Phase =
    | Uninitialised    // the empty string
    | Pending | Configuring | Provisioning | Active | Updating | Deleting | Failed | Unknown

  datatype ConditionType = Ready | Available | Progressing | Error
  datatype ConditionStatus = True | False | Indeterminate

  /** A reason together with the message every call site pairs it with. */
  datatype Reason =
    | PendingConfiguration | ConfiguringResources | StillProvisioning | ResourcesReady | Provisioned
    | UpdateRequired | ResourcesNotReady | ResourcesHealthy | ServiceAvailable | Stable
    | NoChanges | UpdateInProgress | UpdateComplete | DeletingResource
    | MaxRetriesExceeded | AttemptingRecovery | StateUnknown
    | GenerationMismatch | ReconciliationFailed | HTTPRoutesEnsured

  datatype Condition = Condition(kind: ConditionType, status: ConditionStatus, reason: Reason, since: nat)

  datatype Protocol = Http | Https
  datatype Url = Url(protocol: Protocol, domain: string, path: string)

  datatype Status = Status(
    phase: Phase,
    observedGeneration: int,
    conditions: seq<Condition>,
    lastError: Option<Err>,
    lastErrorTime: Option<nat>,
    kodeUrl: Option<Url>,
    kodePort: int,
    runtime: Option<string>,
    retryCount: int,
    deletionCycle: int)

  datatype AccessMode = ReadWriteOnce | ReadOnlyMany | ReadWriteMany | ReadWriteOncePod

  /** A resource request; `storage` is 0 when the request names no storage. */
  datatype VolumeResources = VolumeResources(storage: nat, limit: nat)

  datatype Storage = Storage(
    accessModes: seq<AccessMode>,
    storageClass: Option<string>,
    resources: Option<VolumeResources>,
    keepVolume: Option<bool>,
    existingClaim: Option<string>)

  datatype Credentials = Credentials(
    username: string, password: string, existingSecret: Option<string>, builtinAuth: bool)

  datatype InitPlugin = InitPlugin(name: string, image: string)

  datatype Reference = Reference(kind: string, name: string, namespace: Option<string>)

  datatype KodeSpec = KodeSpec(
    templateRef: Reference,
    credentials: Option<Credentials>,
    home: Option<string>,
    workspace: Option<string>,
    storage: Option<Storage>,
    initPlugins: seq<InitPlugin>)

  datatype Kode = Kode(spec: KodeSpec, generation: int, deleting: bool, finalizer: bool, status: Status)

  // ---- templates and entry points ----

  datatype EnvVar = EnvVar(name: string, value: string)
  datatype Mount = Mount(name: string, path: string)
  datatype Container = Container(name: string, image: string, env: seq<EnvVar>, mounts: seq<Mount>)
  datatype Volume = Volume(name: string, claim: string)

  datatype ContainerType = CodeServer | Webtop | OtherType

  /** A ContainerTemplate or ClusterContainerTemplate. `sidecars` and `sidecarInits`
      are what pkg/envoy builds for it. */
  datatype TemplateSpec = TemplateSpec(
    port: int,
    kind: ContainerType,
    image: string,
    runtimeClass: string,
    timezone: string, puid: int, pgid: int,
    defaultHome: string, defaultWorkspace: string,
    initPlugins: seq<InitPlugin>,
    sidecars: seq<Container>, sidecarInits: seq<Container>,
    entryPointRef: Option<Reference>)

  datatype Routing = Subdomain | Path | OtherRouting

  /** `gateway` is None when GatewaySpec is nil. */
  datatype EntryPoint = EntryPoint(
    routing: Routing, baseDomain: string, gateway: Option<Protocol>, securityPolicy: bool)

  /** What the template manager returns: the template with its entry point, if one was found. */
  datatype Template = Template(name: string, spec: TemplateSpec, entryPoint: Option<EntryPoint>)

  // ---- children ----

  datatype LabelKey = AppName | ManagedBy | KodeName | TemplateName
  type Labels = map<LabelKey, string>

  datatype DataKey = Username | Password | OtherKey(name: string)

  datatype Secret = Secret(data: map<DataKey, string>, labels: Labels)

  datatype Transport = TCP | UDP
  datatype ServicePort = ServicePort(transport: Transport, port: int, targetPort: int)
  datatype Service = Service(ports: seq<ServicePort>, selector: Labels)

  datatype StatefulSet = StatefulSet(
    replicas: int,
    selector: Labels,
    containers: seq<Container>,
    initContainers: seq<Container>,
    volumes: seq<Volume>,
    templateHash: string,
    runtimeClass: Option<string>,
    readyReplicas: int)

  datatype Claim = Claim(
    accessModes: seq<AccessMode>, storageClass: Option<string>, resources: VolumeResources, bound: bool)

  datatype PodCondition = PodCondition(isReadyType: bool, isTrue: bool)
  datatype Pod = Pod(name: string, labels: Labels, images: seq<string>, running: bool, conditions: seq<PodCondition>)

  datatype Key = SetKey | ServiceKey | SecretKey(name: string) | ClaimKey(name: string)

  /** The objects in the Kode's namespace. `terminating` holds those with a deletion timestamp. */
  datatype Children = Children(
    secrets: map<string, Secret>,
    service: Option<Service>,
    stateful: Option<StatefulSet>,
    claims: map<string, Claim>,
    pods: seq<Pod>,
    terminating: set<Key>)

  datatype HttpRoute = HttpRoute(host: string, backend: string, port: int)

  // ---- results of a reconcile ----

  datatype Result = Result(requeue: bool, after: nat)

  const NO_REQUEUE: Result := Result(false, 0)
  const REQUEUE: Result := Result(true, 0)

  predicate IsEmptyResult(r: Result) { !r.requeue && r.after == 0 }
}

/** The cluster as a state, and everyone who changes it other than the Kode controller: the user, the
    environment, and the EntryPoint controller with the snapshot it holds. An API call of the Kode
    controller is one tick: first any number of steps of the others, then the call itself, which may fail. */
module Cluster {
  import opened KodeTypes
  import C = Conditions
  import T = Templates
  import D = Desired

  // ---- the EntryPoint controller between two of its API calls ----

  datatype EpPc = Lookup | EnsureRoute | EnsurePolicy | Report | Publish | Fail

  /** A reconcileKode in flight: where it is, its copy of the Kode, the URL it computed, and
      whether it has a security policy to write. */
  datatype EpRun = EpRun(pc: EpPc, kode: Kode, url: Option<Url>, policy: bool)

  datatype World = World(
    kode: Option<Kode>,
    children: Children,
    ep: Option<EpRun>,
    route: Option<HttpRoute>,
    owned: set<Key>,                // the children the ensure steps have given an owner reference to the Kode
    released: Option<KodeSpec>)     // history: the spec of the reconcile that removed the finalizer

  datatype Act =
    | Edit(spec: KodeSpec)
    | DeleteKode
    | Vanish(key: Key)              // a terminating object disappears
    | PodsAre(pods: seq<Pod>)
    | ReplicasReady(n: int)
    | BindClaim(name: string, bound: bool)
    | Collect(key: Key)             // the garbage collector deletes a child whose owner is gone
    | EpRead
    | EpStep(ok: bool)

  datatype Tick = Tick(acts: seq<Act>, ok: bool)

  /** What stays fixed during a run, with the script of interleavings and failures, one entry per API call. */
  datatype Setting = Setting(
    name: string,
    store: T.Store,
    lib: D.Lib,
    testMode: bool,
    interval: nat,
    longInterval: nat,
    script: nat -> Tick)

  /** The cluster, the number of API calls made so far (also the clock), and the statuses the Kode
      controller has stored so far. */
  datatype Sys = Sys(w: World, t: nat, log: seq<Status>)

  // ---- children ----

  predicate Exists(c: Children, key: Key) {
    match key
    case SetKey => c.stateful.Some?
    case ServiceKey => c.service.Some?
    case SecretKey(n) => n in c.secrets
    case ClaimKey(n) => n in c.claims
  }

  function Remove(c: Children, key: Key): Children {
    var d := c.(terminating := c.terminating - {key});
    match key
    case SetKey => d.(stateful := None)
    case ServiceKey => d.(service := None)
    case SecretKey(n) => d.(secrets := d.secrets - {n})
    case ClaimKey(n) => d.(claims := d.claims - {n})
  }

  /** Delete: an existing object gets a deletion timestamp and goes away later. */
  function Terminate(c: Children, key: Key): Children {
    if Exists(c, key) then c.(terminating := c.terminating + {key}) else c
  }

  function SecretAt(c: Children, n: string): Option<Secret> { if n in c.secrets then Some(c.secrets[n]) else None }

  function ClaimAt(c: Children, n: string): Option<Claim> { if n in c.claims then Some(c.claims[n]) else None }

  // ---- writes to the stored Kode ----

  /** UpdateStatus once it gets through: the stored status becomes the caller's; a missing Kode is no error. */
  function StoreStatus(w: World, s: Status): World {
    if w.kode.None? then w else w.(kode := Some(w.kode.value.(status := s)))
  }

  predicate Live(w: World) { w.kode.Some? && w.kode.value.finalizer }

  function SetCondition(s: Status, kind: ConditionType, status: ConditionStatus, reason: Reason, now: nat): Status {
    s.(conditions := C.Set(s.conditions, Condition(kind, status, reason, now)))
  }

  // ---- EntryPoint ----

  /** findEntryPointForKode once its reads get through. */
  function FindEntryPoint(g: Setting, spec: KodeSpec): Outcome<EntryPoint> {
    match T.Visible(g.store, spec.templateRef)
    case Bad(e) => Bad(e)
    case Ok(t) =>
      if t.spec.entryPointRef.None? then Bad(Invalid)
      else
        var ref := t.spec.entryPointRef.value;
        if ref.namespace.None? then Bad(NilPointer)
        else if ref.name in g.store.entryPoints then Ok(g.store.entryPoints[ref.name])
        else Bad(NotFound)
  }

  /** GenerateKodeUrlForEntryPoint; the host of the route is the domain of the URL. */
  function GenerateUrl(routing: Routing, domain: string, name: string, protocol: Protocol): Outcome<Url> {
    match routing
    case Subdomain => Ok(Url(protocol, name + "." + domain, "/"))
    case Path => Ok(Url(protocol, domain, "/" + name))
    case OtherRouting => Bad(BadRouting)
  }

  /** The copy of the Kode after one of reconcileKode's three error branches, about to be written. */
  function EpFailing(run: EpRun, e: Err, now: nat): EpRun {
    var s := SetCondition(run.kode.status, Error, True, ReconciliationFailed, now);
    run.(pc := Fail, kode := run.kode.(status := s.(phase := Failed, lastError := Some(e), lastErrorTime := Some(now))))
  }

  /** The conditions ensureHTTPRoutes sets once its objects are in place. */
  function EpEnsured(run: EpRun, now: nat): EpRun {
    var s := SetCondition(run.kode.status, Ready, True, HTTPRoutesEnsured, now);
    var s1 := SetCondition(s, Available, True, HTTPRoutesEnsured, now);
    var s2 := SetCondition(s1, Progressing, False, HTTPRoutesEnsured, now);
    run.(pc := Report, kode := run.kode.(status := s2))
  }

  function EpPublishing(run: EpRun, now: nat): EpRun {
    var s := SetCondition(run.kode.status.(kodeUrl := run.url), Available, True, ResourcesReady, now);
    run.(pc := Publish, kode := run.kode.(status := s))
  }

  /** The first part of reconcileKode, up to its first write: the entry point, the URL, and the two
      early exits. None means that the reconcile is over. */
  function EpLookup(g: Setting, run: EpRun, ok: bool, now: nat): Option<EpRun> {
    if !ok then Some(EpFailing(run, Refused, now))
    else match FindEntryPoint(g, run.kode.spec)
      case Bad(e) => if e == NotFound || e == NilPointer then None else Some(EpFailing(run, e, now))
      case Ok(entry) =>
        if entry.gateway.None? then None
        else match GenerateUrl(entry.routing, entry.baseDomain, g.name, entry.gateway.value)
          case Bad(e) => Some(EpFailing(run, e, now))
          case Ok(url) =>
            if run.kode.status.kodeUrl == Some(url) || run.kode.status.kodePort == 0 then None
            else Some(run.(pc := EnsureRoute, url := Some(url), policy := entry.securityPolicy && entry.gateway.value == Https))
  }

  /** createOrUpdateRoute: an existing route is left as it is. */
  function EnsureRouteIn(g: Setting, w: World, run: EpRun): World {
    if w.route.Some? || run.url.None? then w
    else w.(route := Some(HttpRoute(run.url.value.domain, D.ServiceName(g.name), run.kode.status.kodePort)))
  }

  /** Reconcile of the EntryPoint controller up to the decision to go on: it takes its copy. */
  function EpStart(w: World): World {
    if w.ep.Some? || w.kode.None? || w.kode.value.status.phase != Active then w
    else w.(ep := Some(EpRun(Lookup, w.kode.value, None, false)))
  }

  /** One API call of the EntryPoint controller and the local work up to the next. */
  function EpAdvance(g: Setting, w: World, ok: bool, now: nat): World {
    if w.ep.None? then w
    else
      var run := w.ep.value;
      match run.pc
      case Lookup => w.(ep := EpLookup(g, run, ok, now))
      case EnsureRoute =>
        if !ok then w.(ep := Some(EpFailing(run, Refused, now)))
        else EnsureRouteIn(g, w, run).(ep := Some(if run.policy then run.(pc := EnsurePolicy) else EpEnsured(run, now)))
      case EnsurePolicy => w.(ep := Some(if ok then EpEnsured(run, now) else EpFailing(run, Refused, now)))
      case Report =>
        if ok then StoreStatus(w, run.kode.status).(ep := Some(EpPublishing(run, now)))
        else w.(ep := Some(EpFailing(run, Refused, now)))
      case Publish => (if ok then StoreStatus(w, run.kode.status) else w).(ep := None)
      case Fail => (if ok then StoreStatus(w, run.kode.status) else w).(ep := None)
  }

  // ---- the others ----

  function EditKode(w: World, spec: KodeSpec): World {
    if w.kode.None? then w
    else w.(kode := Some(w.kode.value.(spec := spec, generation := w.kode.value.generation + 1)))
  }

  /** Without finalizer the object goes at once; with it, it gets its deletion timestamp and a new generation. */
  function RequestDeletion(w: World): World {
    if w.kode.None? then w
    else if !w.kode.value.finalizer then w.(kode := None)
    else if w.kode.value.deleting then w
    else w.(kode := Some(w.kode.value.(deleting := true, generation := w.kode.value.generation + 1)))
  }

  function SetChildren(w: World, c: Children): World { w.(children := c) }

  function Act1(g: Setting, w: World, a: Act, now: nat): World {
    var c := w.children;
    match a
    case Edit(spec) => EditKode(w, spec)
    case DeleteKode => RequestDeletion(w)
    case Vanish(key) => if key in c.terminating then SetChildren(w, Remove(c, key)) else w
    case PodsAre(pods) => SetChildren(w, c.(pods := pods))
    case ReplicasReady(n) =>
      if c.stateful.None? then w else SetChildren(w, c.(stateful := Some(c.stateful.value.(readyReplicas := n))))
    case BindClaim(n, b) =>
      if n !in c.claims then w else SetChildren(w, c.(claims := c.claims[n := c.claims[n].(bound := b)]))
    case Collect(key) => if w.kode.None? && key in w.owned then SetChildren(w, Terminate(c, key)) else w
    case EpRead => EpStart(w)
    case EpStep(ok) => EpAdvance(g, w, ok, now)
  }

  function Others(g: Setting, w: World, acts: seq<Act>, now: nat): World
    decreases |acts|
  {
    if acts == [] then w else Others(g, Act1(g, w, acts[0], now), acts[1..], now)
  }

  // ---- one API call of the Kode controller ----

  function Enter(g: Setting, y: Sys): Sys { y.(w := Others(g, y.w, g.script(y.t).acts, y.t), t := y.t + 1) }

  predicate Up(g: Setting, y: Sys) { g.script(y.t).ok }

  /** Nobody but the Kode controller acts. */
  ghost predicate Alone(g: Setting) { forall n: nat :: g.script(n).acts == [] }

  /** And no call fails. */
  ghost predicate Quiet(g: Setting) { Alone(g) && forall n: nat :: g.script(n).ok }

  predicate Environmental(a: Act) { a.Vanish? || a.PodsAre? || a.ReplicasReady? || a.BindClaim? }

  /** A call of the EntryPoint controller, which may fail. */
  predicate Entrant(a: Act) { a.EpRead? || a.EpStep? }

  /** The EntryPoint controller has no reconcile in flight and has no reason to start one. */
  predicate Idle(w: World) { w.ep.None? && (w.kode.Some? ==> w.kode.value.status.phase != Active) }

  /** No call of the Kode controller fails, and only the environment and the EntryPoint controller act. */
  ghost predicate Friendly(g: Setting) {
    forall n: nat :: g.script(n).ok && forall i :: 0 <= i < |g.script(n).acts| ==>
      Environmental(g.script(n).acts[i]) || Entrant(g.script(n).acts[i])
  }

  /** No call fails, and only the environment and the garbage collector act. */
  ghost predicate Unattended(g: Setting) {
    forall n: nat :: g.script(n).ok && forall i :: 0 <= i < |g.script(n).acts| ==>
      Environmental(g.script(n).acts[i]) || g.script(n).acts[i].Collect?
  }

  datatype Ack = Ack(y: Sys, err: Option<Err>)

  /** UpdateStatus: Get and Patch taken as one call. */
  function UpdateStatus(g: Setting, y: Sys, s: Status): Ack {
    var z := Enter(g, y);
    if !Up(g, y) then Ack(z, Some(Refused))
    else if z.w.kode.None? then Ack(z, None)
    else Ack(Sys(StoreStatus(z.w, s), z.t, z.log + [s]), None)
  }

  function AddFinalizer(g: Setting, y: Sys): Ack {
    var z := Enter(g, y);
    if !Up(g, y) then Ack(z, Some(Refused))
    else if z.w.kode.None? then Ack(z, None)
    else Ack(z.(w := z.w.(kode := Some(z.w.kode.value.(finalizer := true)))), None)
  }

  /** RemoveFinalizer: an object with a deletion timestamp and no finalizer left is gone. */
  function RemoveFinalizer(g: Setting, y: Sys, spec: KodeSpec): Ack {
    var z := Enter(g, y);
    if !Up(g, y) then Ack(z, Some(Refused))
    else if z.w.kode.None? then Ack(z, None)
    else
      var k := z.w.kode.value.(finalizer := false);
      Ack(z.(w := z.w.(kode := if k.deleting then None else Some(k), released := Some(spec))), None)
  }

  /** A write of children by the operator; the keys are those written by an ensure step, which sets their
      owner reference. */
  function PutChildren(y: Sys, c: Children, owned: set<Key>): Sys {
    y.(w := y.w.(children := c, owned := y.w.owned + owned))
  }
}

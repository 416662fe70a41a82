/** reconcileKode of the EntryPoint controller in its imperative form, with everyone else acting before
    each of its calls, proved equal to its steps as module Cluster takes them one at a time. */
module EntryPointController {
  import opened KodeTypes
  import opened Cluster
  import opened Client
  import C = Conditions
  import D = Desired

  /** What is outside of a reconcile: what all others have done to the cluster before call number n, and
      whether that call gets through. */
  datatype Env = Env(g: Setting, meddle: (nat, World) -> World, up: nat -> bool)

  /** The others act; the copy in flight is not theirs to change. */
  function Meddled(e: Env, w: World, n: nat): World { e.meddle(n, w.(ep := None)).(ep := w.ep) }

  function EpCall(e: Env, w: World, n: nat): World { EpAdvance(e.g, Meddled(e, w, n), e.up(n), n) }

  /** How many calls may still follow. */
  function CallsLeft(ep: Option<EpRun>): nat {
    if ep.None? then 0
    else match ep.value.pc
      case Lookup => 5
      case EnsureRoute => 4
      case EnsurePolicy => 3
      case Report => 2
      case Publish => 1
      case Fail => 1
  }

  lemma CallsDecrease(e: Env, w: World, n: nat)
    requires w.ep.Some?
    ensures CallsLeft(EpCall(e, w, n).ep) < CallsLeft(w.ep)
  {
    hide C.Set, FindEntryPoint, GenerateUrl;
  }

  /** The steps of a reconcile in flight, to its end. */
  function EpFinish(e: Env, w: World, n: nat): (r: World)
    ensures r.ep.None?
    decreases CallsLeft(w.ep)
  {
    if w.ep.None? then w
    else
      CallsDecrease(e, w, n);
      EpFinish(e, EpCall(e, w, n), n + 1)
  }

  lemma EpFinishStep(e: Env, w: World, n: nat)
    ensures EpFinish(e, w, n) == if w.ep.None? then w else EpFinish(e, EpCall(e, w, n), n + 1)
  {
    hide EpCall;
  }

  class EntryPointReconciler {
    const env: Env
    var world: World
    var calls: nat

    constructor (env: Env, world: World)
      requires world.ep.None?
      ensures this.env == env && this.world == world && calls == 0
    {
      this.env, this.world, calls := env, world, 0;
    }

    /** The cluster with this reconcile in flight. */
    ghost function InFlight(pc: EpPc, kode: KodeObject, url: Option<Url>, policy: bool): World
      reads this, kode
    {
      world.(ep := Some(EpRun(pc, kode.View(), url, policy)))
    }

    method Call() returns (ok: bool)
      requires world.ep.None?
      modifies this
      ensures world == env.meddle(old(calls), old(world)).(ep := None) && calls == old(calls) + 1 && ok == env.up(old(calls))
    {
      ok := env.up(calls);
      world := env.meddle(calls, world).(ep := None);
      calls := calls + 1;
    }

    method UpdateStatus(kode: KodeObject) returns (ok: bool)
      requires world.ep.None?
      modifies this
      ensures ok == env.up(old(calls)) && calls == old(calls) + 1
      ensures world == if ok then StoreStatus(env.meddle(old(calls), old(world)).(ep := None), kode.status)
                       else env.meddle(old(calls), old(world)).(ep := None)
    {
      ok := Call();
      if ok && world.kode.Some? {
        world := world.(kode := Some(world.kode.value.(status := kode.status)));
      }
    }

    /** The three error branches: mark the copy Failed and write it back. */
    method ReportFailure(kode: KodeObject, e: Err, now: nat, ghost url: Option<Url>, ghost policy: bool, ghost pc: EpPc)
      requires world.ep.None?
      modifies this, kode
      ensures world == EpFinish(env, old(world).(ep := Some(EpFailing(EpRun(pc, old(kode.View()), url, policy), e, now))), old(calls))
    {
      hide C.Set;
      ghost var run := EpFailing(EpRun(pc, kode.View(), url, policy), e, now);
      kode.SetCondition(Error, True, ReconciliationFailed, now);
      kode.status := kode.status.(phase := Failed, lastError := Some(e), lastErrorTime := Some(now));
      assert kode.View() == run.kode;
      EpFinishStep(env, world.(ep := Some(run)), calls);
      assert world.(ep := Some(run)).(ep := None) == world;
      var stored := UpdateStatus(kode);
      EpFinishStep(env, world, calls);
    }

    /** The last write: the URL and the Available condition. */
    method PublishUrl(kode: KodeObject, url: Url, now: nat, ghost policy: bool)
      requires world.ep.None?
      modifies this, kode
      ensures world == EpFinish(env, old(world).(ep := Some(EpPublishing(EpRun(Cluster.Report, old(kode.View()), Some(url), policy), now))), old(calls))
    {
      hide C.Set;
      ghost var run := EpPublishing(EpRun(Cluster.Report, kode.View(), Some(url), policy), now);
      kode.status := kode.status.(kodeUrl := Some(url));
      kode.SetCondition(Available, True, ResourcesReady, now);
      assert kode.View() == run.kode;
      EpFinishStep(env, world.(ep := Some(run)), calls);
      assert world.(ep := Some(run)).(ep := None) == world;
      var stored := UpdateStatus(kode);
      EpFinishStep(env, world, calls);
    }

    /** ensureHTTPRoutes: the route, the security policy where there is one, and the conditions. */
    method EnsureHTTPRoutes(kode: KodeObject, url: Url, policy: bool) returns (failed: bool, ghost pc: EpPc, now: nat)
      requires world.ep.None?
      modifies this, kode
      ensures world.ep.None?
      ensures failed ==>
                EpFinish(env, old(InFlight(EnsureRoute, kode, Some(url), policy)), old(calls))
                == EpFinish(env, world.(ep := Some(EpFailing(EpRun(pc, kode.View(), Some(url), policy), Refused, now))), calls)
      ensures !failed ==>
                EpFinish(env, old(InFlight(EnsureRoute, kode, Some(url), policy)), old(calls))
                == EpFinish(env, world.(ep := Some(EpPublishing(EpRun(Cluster.Report, kode.View(), Some(url), policy), now))), calls)
    {
      hide EpFailing, EpPublishing, EpFinish, C.Set;
      pc := EnsureRoute;
      now := calls;
      EpFinishStep(env, InFlight(EnsureRoute, kode, Some(url), policy), calls);
      assert InFlight(EnsureRoute, kode, Some(url), policy).(ep := None) == world;
      var ok := Call();
      if !ok {
        return true, pc, now;
      }
      if world.route.None? {
        world := world.(route := Some(HttpRoute(url.domain, D.ServiceName(env.g.name), kode.status.kodePort)));
      }
      if policy {
        pc := EnsurePolicy;
        now := calls;
        EpFinishStep(env, InFlight(EnsurePolicy, kode, Some(url), policy), calls);
        assert InFlight(EnsurePolicy, kode, Some(url), policy).(ep := None) == world;
        ok := Call();
        if !ok {
          return true, pc, now;
        }
      }
      kode.SetCondition(Ready, True, HTTPRoutesEnsured, now);
      kode.SetCondition(Available, True, HTTPRoutesEnsured, now);
      kode.SetCondition(Progressing, False, HTTPRoutesEnsured, now);
      pc := Cluster.Report;
      now := calls;
      EpFinishStep(env, InFlight(Cluster.Report, kode, Some(url), policy), calls);
      assert InFlight(Cluster.Report, kode, Some(url), policy).(ep := None) == world;
      ok := UpdateStatus(kode);
      return !ok, pc, now;
    }

    /** reconcileKode on the copy that was read. */
    method ReconcileKode(kode: KodeObject)
      requires world.ep.None?
      modifies this, kode
      ensures old(kode.status.phase) != Active ==> world == old(world)
      ensures old(kode.status.phase) == Active ==> world == EpFinish(env, old(InFlight(Lookup, kode, None, false)), old(calls))
    {
      hide EpFailing, EpPublishing, EpFinish, FindEntryPoint, GenerateUrl, C.Set;
      if kode.status.phase != Active {
        return;
      }
      var now := calls;
      ghost var run := EpRun(Lookup, kode.View(), None, false);
      EpFinishStep(env, InFlight(Lookup, kode, None, false), calls);
      assert InFlight(Lookup, kode, None, false).(ep := None) == world;
      var ok := Call();
      EpFinishStep(env, world, calls);
      if !ok {
        ReportFailure(kode, Refused, now, None, false, Lookup);
        return;
      }
      var found := FindEntryPoint(env.g, kode.spec);
      if found.Bad? {
        if found.err != NotFound && found.err != NilPointer {
          ReportFailure(kode, found.err, now, None, false, Lookup);
        }
        return;
      }
      var entry := found.value;
      if entry.gateway.None? {
        return;
      }
      var generated := GenerateUrl(entry.routing, entry.baseDomain, env.g.name, entry.gateway.value);
      if generated.Bad? {
        ReportFailure(kode, generated.err, now, None, false, Lookup);
        return;
      }
      var url := generated.value;
      if kode.status.kodeUrl == Some(url) {
        return;
      }
      if kode.status.kodePort == 0 {
        return;
      }
      var policy := entry.securityPolicy && entry.gateway.value == Https;
      var failed, pc, failedAt := EnsureHTTPRoutes(kode, url, policy);
      if failed {
        ReportFailure(kode, Refused, failedAt, Some(url), policy, pc);
        return;
      }
      PublishUrl(kode, url, failedAt, policy);
    }
  }
}

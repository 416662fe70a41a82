/** What the EntryPoint controller publishes: the URL and the route, from the fields of template and entry point,
    in every run; and what one of its reconciles leaves. */
module Urls {
  import opened KodeTypes
  import opened Cluster
  import opened Handlers
  import opened Invariants
  import opened Runs
  import C = Conditions
  import T = Templates

  // ---- from references to fields ----

  /** The template a reference names: by namespace and name, or by name alone if it is cluster-wide. */
  predicate Names(g: Setting, ref: Reference, t: TemplateSpec) {
    var namespace := if ref.namespace.Some? then ref.namespace.value else "";
    || (ref.kind == "ContainerTemplate" && (namespace, ref.name) in g.store.namespaced && t == g.store.namespaced[(namespace, ref.name)])
    || (ref.kind == "ClusterContainerTemplate" && ref.name in g.store.clusterWide && t == g.store.clusterWide[ref.name])
  }

  /** A template is visible exactly if a reference that names something names it. */
  lemma VisibleExactly(g: Setting, ref: Reference, t: TemplateSpec)
    ensures (T.Visible(g.store, ref).Ok? && T.Visible(g.store, ref).value.spec == t) <==> ref.name != "" && Names(g, ref, t)
    ensures T.Visible(g.store, ref).Ok? ==> T.Visible(g.store, ref).value.name == ref.name && Names(g, ref, T.Visible(g.store, ref).value.spec)
    ensures T.IsContainerKind(ref.kind) <==> ref.kind == "ContainerTemplate" || ref.kind == "ClusterContainerTemplate"
  {
    assert |"ContainerTemplate"| != |"ClusterContainerTemplate"|;
  }

  /** One attempt of a fetch, by which reads get through: the template's, and the entry point's if it names one.
      An entry point that does not exist is no failure. */
  lemma AttemptExactly(g: Setting, ref: Reference, up: (bool, bool), t: TemplateSpec)
    requires Names(g, ref, t)
    ensures var o := T.FetchOnce(g.store, ref, up);
            && (o.Ok? <==> up.0 && (t.entryPointRef.Some? ==> up.1))
            && (o.Ok? ==>
                  && o.value.name == ref.name && o.value.spec == t
                  && o.value.entryPoint == if t.entryPointRef.Some? && t.entryPointRef.value.name in g.store.entryPoints
                                           then Some(g.store.entryPoints[t.entryPointRef.value.name]) else None)
  {
    assert |"ContainerTemplate"| != |"ClusterContainerTemplate"|;
  }

  /** A fetch that is not answered from the cache succeeds if and only if the reference names a template and one of
      five attempts has its reads get through. */
  lemma FetchExactly(g: Setting, ref: Reference, up: nat -> (bool, bool))
    ensures T.Fetch(g.store, map[], ref, up).0.Ok? <==>
              exists t: TemplateSpec, i: nat ::
                ref.name != "" && Names(g, ref, t) && i < 5 && up(i).0 && (t.entryPointRef.Some? ==> up(i).1)
  {
    var o := T.Attempts(g.store, ref, up, 0);
    hide T.Fetch, T.FetchOnce, Names;
    FetchIs(g, ref, up);
    if ref.kind != "" && ref.name != "" {
      if o.Ok? {
        var i: nat := SomeAttempt(g, ref, up, 0);
        var t := OneNamed(g, ref, up(i));
        AttemptExactly(g, ref, up(i), t);
      }
      forall t: TemplateSpec, i: nat | Names(g, ref, t) && i < 5 && up(i).0 && (t.entryPointRef.Some? ==> up(i).1) ensures o.Ok? {
        AttemptExactly(g, ref, up(i), t);
      }
    }
    NoKindNoName(g, ref);
  }

  lemma FetchIs(g: Setting, ref: Reference, up: nat -> (bool, bool))
    ensures T.Fetch(g.store, map[], ref, up).0 == if ref.kind == "" || ref.name == "" then Bad(BadReference) else T.Attempts(g.store, ref, up, 0)
  {
  }

  lemma NoKindNoName(g: Setting, ref: Reference)
    ensures forall t: TemplateSpec :: Names(g, ref, t) ==> ref.kind != ""
  {
  }

  lemma {:induction false} SomeAttempt(g: Setting, ref: Reference, up: nat -> (bool, bool), from: nat) returns (i: nat)
    requires from <= T.STEPS && T.Attempts(g.store, ref, up, from).Ok?
    ensures from <= i < 5 && T.FetchOnce(g.store, ref, up(i)).Ok?
    decreases T.STEPS - from
  {
    hide T.FetchOnce;
    i := from;
    if T.FetchOnce(g.store, ref, up(from)).Bad? {
      i := SomeAttempt(g, ref, up, from + 1);
    }
  }

  lemma OneNamed(g: Setting, ref: Reference, up: (bool, bool)) returns (t: TemplateSpec)
    requires T.FetchOnce(g.store, ref, up).Ok?
    ensures Names(g, ref, t)
  {
    t := T.FetchOnce(g.store, ref, up).value.spec;
  }

  /** The template's entry point, given with the namespace the source demands. */
  ghost predicate Enters(g: Setting, ref: Reference, e: EntryPoint) {
    exists t: TemplateSpec :: ref.name != "" && Names(g, ref, t) && EntersBy(g, t, e)
  }

  predicate EntersBy(g: Setting, t: TemplateSpec, e: EntryPoint) {
    && t.entryPointRef.Some? && t.entryPointRef.value.namespace.Some?
    && t.entryPointRef.value.name in g.store.entryPoints && e == g.store.entryPoints[t.entryPointRef.value.name]
  }

  /** What a Kode's URL is under an entry point. */
  predicate IsUrl(name: string, e: EntryPoint, u: Url) {
    && e.gateway == Some(u.protocol)
    && match e.routing
       case Subdomain => u.domain == name + "." + e.baseDomain && u.path == "/"
       case Path => u.domain == e.baseDomain && u.path == "/" + name
       case OtherRouting => false
  }

  lemma TheUrlIs(g: Setting, spec: KodeSpec)
    ensures TheUrl(g, spec).Some? ==> exists e :: Enters(g, spec.templateRef, e) && IsUrl(g.name, e, TheUrl(g, spec).value)
  {
    var ref := spec.templateRef;
    hide T.Visible;
    if TheUrl(g, spec).Some? {
      var t := T.Visible(g.store, ref).value.spec;
      VisibleExactly(g, ref, t);
      var e := FindEntryPoint(g, spec).value;
      assert EntersBy(g, t, e) && Enters(g, ref, e);
      assert IsUrl(g.name, e, TheUrl(g, spec).value);
    }
  }

  // ---- over runs ----

  /** A status, if it has a URL, has the right one, and the route is for its host. */
  ghost predicate Right(g: Setting, ref: Reference, w: World, s: Status) {
    s.kodeUrl.Some? ==> w.route.Some? && w.route.value.host == s.kodeUrl.value.domain
                        && exists e :: Enters(g, ref, e) && IsUrl(g.name, e, s.kodeUrl.value)
  }

  /** While the template reference stays, in every run: every URL, stored or in a copy of the EntryPoint controller,
      has the gateway's protocol and the host and path its routing asks for, and its host is the route's. */
  lemma UrlsFollowTheEntryPoint(g: Setting, y: Sys, events: seq<Event>)
    requires Start(g, y) && KeepsRef(g, FirstSpec(y))
    ensures var w := Run(g, y, events).w;
            var ref := FirstSpec(y).templateRef;
            && (w.kode.Some? ==> Right(g, ref, w, w.kode.value.status))
            && (w.ep.Some? ==> Right(g, ref, w, w.ep.value.kode.status))
  {
    hide Run, Start, KeepsRef, TheUrl, ThePort, Enters, IsUrl;
    StartIsThere(g, y);
    UrlIsServed(g, y, events);
    TheUrlIs(g, FirstSpec(y));
  }

  /** So the route's host too, even before a URL is stored. */
  lemma RouteFollowsTheEntryPoint(g: Setting, y: Sys, events: seq<Event>)
    requires Start(g, y) && KeepsRef(g, FirstSpec(y))
    ensures var w := Run(g, y, events).w;
            w.route.Some? ==>
              exists e, u :: Enters(g, FirstSpec(y).templateRef, e) && IsUrl(g.name, e, u) && w.route.value.host == u.domain
                             && w.route.value.backend == g.name + "-svc"
  {
    hide Run, Start, StatusInv, OrphanInv, NamesInv, KeepsNames, KeepsRef, TheUrl, ThePort, Enters, IsUrl, Published;
    StartIsThere(g, y);
    Reachable(g, y, events);
    TheUrlIs(g, FirstSpec(y));
  }

  /** Two Kodes with different names never have the same URL under one entry point. */
  lemma UrlsDiffer(a: string, b: string, e: EntryPoint, u: Url, v: Url)
    requires IsUrl(a, e, u) && IsUrl(b, e, v)
    ensures u == v ==> a == b
  {
    if u == v {
      if e.routing == Subdomain {
        SameFront(a, b, "." + e.baseDomain);
        assert a + "." + e.baseDomain == a + ("." + e.baseDomain) && b + "." + e.baseDomain == b + ("." + e.baseDomain);
      } else {
        assert ("/" + a)[1..] == a && ("/" + b)[1..] == b;
      }
    }
  }

  lemma SameFront(a: string, b: string, s: string)
    ensures a + s == b + s ==> a == b
  {
    assert |a + s| == |a| + |s| && |b + s| == |b| + |s|;
    assert a == (a + s)[..|(a + s)| - |s|] && b == (b + s)[..|(b + s)| - |s|];
  }

  lemma OneEntryPoint(g: Setting, ref: Reference, e: EntryPoint, f: EntryPoint)
    requires Enters(g, ref, e) && Enters(g, ref, f)
    ensures e == f
  {
    assert |"ContainerTemplate"| != |"ClusterContainerTemplate"|;
  }

  /** Over runs: two Kodes of different names with the same template never have the same stored URL. */
  lemma NoSharedUrl(g: Setting, y: Sys, events: seq<Event>, h: Setting, z: Sys, others: seq<Event>)
    requires Start(g, y) && KeepsRef(g, FirstSpec(y)) && Start(h, z) && KeepsRef(h, FirstSpec(z))
    requires g.store == h.store && FirstSpec(y).templateRef == FirstSpec(z).templateRef && g.name != h.name
    ensures var v, w := Run(g, y, events).w, Run(h, z, others).w;
            v.kode.Some? && w.kode.Some? && v.kode.value.status.kodeUrl.Some? ==>
              v.kode.value.status.kodeUrl != w.kode.value.status.kodeUrl
  {
    hide Run, Start, KeepsRef, Enters, IsUrl;
    StartIsThere(g, y);
    StartIsThere(h, z);
    UrlsFollowTheEntryPoint(g, y, events);
    UrlsFollowTheEntryPoint(h, z, others);
    var v, w := Run(g, y, events).w, Run(h, z, others).w;
    var ref := FirstSpec(y).templateRef;
    if v.kode.Some? && w.kode.Some? && v.kode.value.status.kodeUrl.Some? && w.kode.value.status.kodeUrl.Some? {
      var a, b := v.kode.value.status.kodeUrl.value, w.kode.value.status.kodeUrl.value;
      var e :| Enters(g, ref, e) && IsUrl(g.name, e, a);
      var f :| Enters(h, ref, f) && IsUrl(h.name, f, b);
      SameStore(g, h, ref, f);
      OneEntryPoint(g, ref, e, f);
      UrlsDiffer(g.name, h.name, e, a, b);
    }
  }

  lemma SameStore(g: Setting, h: Setting, ref: Reference, e: EntryPoint)
    requires g.store == h.store && Enters(h, ref, e)
    ensures Enters(g, ref, e)
  {
    var t :| ref.name != "" && Names(h, ref, t) && EntersBy(h, t, e);
    assert Names(g, ref, t) && EntersBy(g, t, e);
  }

  // ---- what a reconcile of the EntryPoint controller leaves ----

  /** The entry point of a Kode's template, its gateway and the Kode's URL, as the fields give them. */
  ghost predicate Publishable(g: Setting, k: Kode, e: EntryPoint, u: Url) {
    Enters(g, k.spec.templateRef, e) && IsUrl(g.name, e, u)
  }

  lemma FoundEntryPoint(g: Setting, spec: KodeSpec, e: EntryPoint)
    requires Enters(g, spec.templateRef, e)
    ensures FindEntryPoint(g, spec) == Ok(e)
  {
    var t :| spec.templateRef.name != "" && Names(g, spec.templateRef, t) && EntersBy(g, t, e);
    VisibleExactly(g, spec.templateRef, t);
    hide T.Visible, Names;
  }

  lemma LooksUp(g: Setting, k: Kode, e: EntryPoint, u: Url, now: nat)
    requires Publishable(g, k, e, u)
    ensures var run := EpRun(Lookup, k, None, false);
            EpLookup(g, run, true, now) ==
            if k.status.kodeUrl == Some(u) || k.status.kodePort == 0 then None
            else Some(EpRun(EnsureRoute, k, Some(u), e.securityPolicy && u.protocol == Https))
  {
    FoundEntryPoint(g, k.spec, e);
    hide FindEntryPoint, Enters;
  }

  /** One step that gets through. */
  function Does(g: Setting, w: World, now: nat): World { Act1(g, w, EpStep(true), now) }

  /** The conditions of a published Kode. */
  predicate Announced(s: Status) {
    C.Is(s.conditions, Ready, True) && C.Is(s.conditions, Available, True) && C.Is(s.conditions, Progressing, False)
  }

  lemma EnsuredTells(run: EpRun, now: nat)
    ensures Announced(EpEnsured(run, now).kode.status)
    ensures var s := EpEnsured(run, now).kode.status; s == run.kode.status.(conditions := s.conditions)
  {
    var cs := run.kode.status.conditions;
    var a := Condition(Ready, True, HTTPRoutesEnsured, now);
    var b := Condition(Available, True, HTTPRoutesEnsured, now);
    var c := Condition(Progressing, False, HTTPRoutesEnsured, now);
    C.SetMeaning(cs, a);
    C.SetMeaning(C.Set(cs, a), b);
    C.SetMeaning(C.Set(C.Set(cs, a), b), c);
    hide C.Set, C.Get;
  }

  lemma PublishingTells(run: EpRun, now: nat)
    requires Announced(run.kode.status)
    ensures Announced(EpPublishing(run, now).kode.status)
    ensures var s := EpPublishing(run, now).kode.status; s == run.kode.status.(kodeUrl := run.url, conditions := s.conditions)
  {
    C.SetMeaning(run.kode.status.conditions, Condition(Available, True, ResourcesReady, now));
    hide C.Set, C.Get;
  }

  lemma RouteSteps(g: Setting, w: World, now: nat)
    requires w.ep.Some? && w.ep.value.pc == EnsureRoute && w.ep.value.url.Some?
    ensures var run := w.ep.value;
            var r := if run.policy then Does(g, Does(g, w, now), now) else Does(g, w, now);
            r == w.(route := if w.route.Some? then w.route else Some(HttpRoute(run.url.value.domain, g.name + "-svc", run.kode.status.kodePort)),
                    ep := Some(EpEnsured(if run.policy then run.(pc := EnsurePolicy) else run, now)))
  {
    hide EpEnsured, EpPublishing, EpFailing, EpLookup;
  }

  lemma LastSteps(g: Setting, w: World, now: nat)
    requires w.kode.Some? && w.ep.Some? && w.ep.value.pc == Report
    ensures Does(g, Does(g, w, now), now)
            == w.(kode := Some(w.kode.value.(status := EpPublishing(w.ep.value, now).kode.status)), ep := None)
  {
    PublishingPc(w.ep.value, now);
    hide EpEnsured, EpPublishing, EpFailing, EpLookup;
  }

  lemma PublishingPc(run: EpRun, now: nat)
    ensures EpPublishing(run, now).pc == Publish && EpEnsured(run, now) == run.(pc := Report, kode := EpEnsured(run, now).kode)
    ensures EpEnsured(run, now).kode == run.kode.(status := EpEnsured(run, now).kode.status)
  {
    hide C.Set;
  }

  /** A reconcile of the EntryPoint controller with all its calls getting through, from its read to its end: it
      does nothing if the URL is published already or there is no port yet; otherwise there is a route, and the
      stored status is the old one with the URL, Ready and Available True and Progressing False. */
  lemma EntryPointPublishes(g: Setting, w: World, e: EntryPoint, u: Url, now: nat)
    requires w.kode.Some? && w.kode.value.status.phase == Active && w.ep.None? && Publishable(g, w.kode.value, e, u)
    ensures var k := w.kode.value;
            var v := Does(g, Act1(g, w, EpRead, now), now);
            var r := if e.securityPolicy && u.protocol == Https then Does(g, Does(g, v, now), now) else Does(g, v, now);
            var x := Does(g, Does(g, r, now), now);
            if k.status.kodeUrl == Some(u) || k.status.kodePort == 0 then v == w
            else
              && x == w.(kode := x.kode, route := x.route)
              && x.kode.Some? && x.kode.value == k.(status := x.kode.value.status)
              && x.kode.value.status == k.status.(kodeUrl := Some(u), conditions := x.kode.value.status.conditions)
              && Announced(x.kode.value.status)
              && x.route == (if w.route.Some? then w.route else Some(HttpRoute(u.domain, g.name + "-svc", k.status.kodePort)))
  {
    hide EpLookup, EpEnsured, EpPublishing, EpFailing, Publishable, Announced, Act1, Does;
    var k := w.kode.value;
    var run := EpRun(EnsureRoute, k, Some(u), e.securityPolicy && u.protocol == Https);
    FirstSteps(g, w, e, u, now);
    var v := Does(g, Act1(g, w, EpRead, now), now);
    if !(k.status.kodeUrl == Some(u) || k.status.kodePort == 0) {
      var q := if run.policy then run.(pc := EnsurePolicy) else run;
      RouteSteps(g, v, now);
      PublishingPc(q, now);
      LastSteps(g, if run.policy then Does(g, Does(g, v, now), now) else Does(g, v, now), now);
      EnsuredTells(q, now);
      PublishingTells(EpEnsured(q, now), now);
    }
  }

  lemma FirstSteps(g: Setting, w: World, e: EntryPoint, u: Url, now: nat)
    requires w.kode.Some? && w.kode.value.status.phase == Active && w.ep.None? && Publishable(g, w.kode.value, e, u)
    ensures var k := w.kode.value;
            Does(g, Act1(g, w, EpRead, now), now) ==
            if k.status.kodeUrl == Some(u) || k.status.kodePort == 0 then w
            else w.(ep := Some(EpRun(EnsureRoute, k, Some(u), e.securityPolicy && u.protocol == Https)))
  {
    hide EpLookup, EpEnsured, EpPublishing, EpFailing, Publishable;
    LooksUp(g, w.kode.value, e, u, now);
  }

  /** If one of its calls before the last is refused, its next call makes the Kode Failed, with the error reported
      and everything else as in its copy; a refused last call leaves the Kode as it is. */
  lemma EntryPointFails(g: Setting, w: World, now: nat)
    requires w.kode.Some? && w.ep.Some? && w.ep.value.pc != Fail
    ensures var copy := w.ep.value.kode.status;
            var v := Act1(g, w, EpStep(false), now);
            var x := Does(g, v, now);
            if w.ep.value.pc == Publish then v == w.(ep := None)
            else
              && x == w.(kode := x.kode, ep := None)
              && x.kode.Some? && x.kode.value == w.kode.value.(status := x.kode.value.status)
              && x.kode.value.status == copy.(phase := Failed, lastError := Some(Refused), lastErrorTime := Some(now),
                                              conditions := x.kode.value.status.conditions)
              && C.Is(x.kode.value.status.conditions, Error, True)
              && forall kind :: kind != Error ==> C.Get(x.kode.value.status.conditions, kind) == C.Get(copy.conditions, kind)
  {
    C.SetMeaning(w.ep.value.kode.status.conditions, Condition(Error, True, ReconciliationFailed, now));
    hide EpEnsured, EpPublishing, C.Set, C.Get;
  }

  /** Under a routing the operator does not know the Kode becomes Failed. */
  lemma UnknownRoutingFails(g: Setting, w: World, e: EntryPoint, now: nat)
    requires w.kode.Some? && w.kode.value.status.phase == Active && w.ep.None?
    requires Enters(g, w.kode.value.spec.templateRef, e) && e.gateway.Some? && e.routing == OtherRouting
    ensures var x := Does(g, Does(g, Act1(g, w, EpRead, now), now), now);
            x.kode.Some? && x.kode.value.status.phase == Failed && x.kode.value.status.lastError == Some(BadRouting) && x.route == w.route
  {
    FoundEntryPoint(g, w.kode.value.spec, e);
    hide FindEntryPoint, Enters, C.Set;
  }
}

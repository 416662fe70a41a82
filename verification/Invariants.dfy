/** The invariants of the stored Kode, of the copies the two controllers hold, and of the children, and
    that no step of the user, the environment or the EntryPoint controller breaks one. */
module Invariants {
  import opened KodeTypes
  import opened Cluster
  import C = Conditions
  import D = Desired
  import R = Resources
  import T = Templates

  // ---- one status, wherever it is held ----

  predicate HasAll(s: Status) {
    C.Has(s.conditions, Ready) && C.Has(s.conditions, Available) && C.Has(s.conditions, Progressing)
  }

  predicate Settled(p: Phase) {
    p == Configuring || p == Provisioning || p == Active || p == Updating || p == Failed
  }

  /** Holds of every stored status and of every copy: the conditions the Active handler dereferences
      exist, the retry count is bounded and 0 in the phases whose handlers ran with 0, and the deletion
      cycle is 0 outside Deleting. */
  predicate StatusOk(s: Status) {
    && (Settled(s.phase) ==> HasAll(s))
    && 0 <= s.retryCount <= 5
    && (s.retryCount > 0 ==> s.phase == Failed || s.phase == Pending || s.phase == Provisioning || s.phase == Updating || s.phase == Deleting)
    && s.deletionCycle >= 0
    && (s.phase != Deleting ==> s.deletionCycle == 0)
  }

  ghost predicate StatusInv(w: World) {
    && (w.kode.Some? ==>
          var k := w.kode.value;
          && StatusOk(k.status)
          && k.status.observedGeneration <= k.generation
          && (k.deleting ==> k.finalizer)
          && (k.status.phase == Deleting ==> k.deleting)
          && (k.status.phase == Uninitialised ==> k.status.observedGeneration < k.generation))
    && (w.ep.Some? ==>
          var k := w.ep.value.kode;
          && StatusOk(k.status)
          && k.status.phase == (if w.ep.value.pc == Fail then Failed else Active)
          && k.status.retryCount == 0
          && (w.kode.Some? ==> k.status.observedGeneration <= w.kode.value.generation))
  }

  // ---- children ----

  /** The children the operator creates under some spec. */
  predicate IsOwn(g: Setting, key: Key) {
    match key
    case SetKey => true
    case ServiceKey => true
    case SecretKey(n) => n == D.OwnSecretName(g.name)
    case ClaimKey(n) => n == D.OwnClaimName(g.name)
  }

  /** Of these, the ones it creates under this spec. */
  predicate OwnUnder(g: Setting, spec: KodeSpec, key: Key) {
    match key
    case SetKey => true
    case ServiceKey => true
    case SecretKey(n) => n == D.OwnSecretName(g.name) && D.ExistingSecret(spec).None?
    case ClaimKey(n) => n == D.OwnClaimName(g.name) && D.ManagesClaim(spec)
  }

  /** An own child that exists was created by the operator; none was before the finalizer was on; and
      once the operator took the finalizer off, everything the reconcile that did so required to be
      absent is absent. */
  ghost predicate OrphanInv(g: Setting, w: World) {
    && (forall key :: IsOwn(g, key) && Exists(w.children, key) ==> key in w.owned)
    && (w.released.None? && !Live(w) ==> w.owned == {})
    && (w.released.Some? ==> w.kode.None? && forall key :: key in R.RequiredAbsent(g, w.released.value) ==> !Exists(w.children, key))
  }

  /** Two specs give the children the same names: same existing secret, and the claim managed in both or in neither. */
  predicate SameNames(a: KodeSpec, b: KodeSpec) {
    D.ExistingSecret(a) == D.ExistingSecret(b) && D.ManagesClaim(a) == D.ManagesClaim(b)
  }

  ghost predicate NamesInv(g: Setting, s0: KodeSpec, w: World) {
    && (w.kode.Some? ==> SameNames(w.kode.value.spec, s0))
    && (w.released.Some? ==> SameNames(w.released.value, s0))
    && (forall key :: key in w.owned ==> OwnUnder(g, s0, key))
  }

  // ---- URL publication ----

  /** The URL reconcileKode computes for a Kode with this template reference. */
  function TheUrl(g: Setting, spec: KodeSpec): Option<Url> {
    match FindEntryPoint(g, spec)
    case Bad(_) => None
    case Ok(e) =>
      if e.gateway.None? then None
      else match GenerateUrl(e.routing, e.baseDomain, g.name, e.gateway.value)
        case Bad(_) => None
        case Ok(u) => Some(u)
  }

  function ThePort(g: Setting, spec: KodeSpec): Option<int> {
    match T.Visible(g.store, spec.templateRef)
    case Bad(_) => None
    case Ok(t) => Some(t.spec.port)
  }

  /** A published URL is the one of the entry point and its host is routed; a published port is the template's. */
  ghost predicate Published(g: Setting, s0: KodeSpec, w: World, s: Status) {
    && (s.kodePort == 0 || Some(s.kodePort) == ThePort(g, s0))
    && (s.kodeUrl.Some? ==> w.route.Some? && s.kodeUrl == TheUrl(g, s0) && w.route.value.host == s.kodeUrl.value.domain)
  }

  ghost predicate UrlInv(g: Setting, s0: KodeSpec, w: World) {
    && (w.kode.Some? ==> w.kode.value.spec.templateRef == s0.templateRef && Published(g, s0, w, w.kode.value.status))
    && (w.ep.Some? ==>
          && w.ep.value.kode.spec.templateRef == s0.templateRef
          && Published(g, s0, w, w.ep.value.kode.status)
          && (w.ep.value.pc != Lookup && w.ep.value.pc != Fail ==>
                w.ep.value.url.Some? && w.ep.value.url == TheUrl(g, s0) && w.ep.value.kode.status.kodePort != 0)
          && (w.ep.value.pc == EnsurePolicy || w.ep.value.pc == Report || w.ep.value.pc == Publish ==> w.route.Some?))
    && (w.route.Some? ==>
          && w.route.value.backend == D.ServiceName(g.name)
          && Some(w.route.value.port) == ThePort(g, s0)
          && TheUrl(g, s0).Some? && w.route.value.host == TheUrl(g, s0).value.domain)
    && (w.children.service.Some? && ThePort(g, s0).Some? ==>
          w.children.service.value.ports == [ServicePort(TCP, ThePort(g, s0).value, ThePort(g, s0).value)])
  }

  // ---- hypotheses on the user's edits ----


  /** No edit ever changes the names of the children. */
  ghost predicate KeepsNames(g: Setting, s0: KodeSpec) {
    forall n: nat, i :: 0 <= i < |g.script(n).acts| && g.script(n).acts[i].Edit? ==> SameNames(g.script(n).acts[i].spec, s0)
  }

  /** No edit ever changes the template reference. */
  ghost predicate KeepsRef(g: Setting, s0: KodeSpec) {
    forall n: nat, i :: 0 <= i < |g.script(n).acts| && g.script(n).acts[i].Edit? ==> g.script(n).acts[i].spec.templateRef == s0.templateRef
  }

  ghost predicate Inv(g: Setting, s0: KodeSpec, w: World) {
    && StatusInv(w)
    && OrphanInv(g, w)
    && (KeepsNames(g, s0) ==> NamesInv(g, s0, w))
    && (KeepsRef(g, s0) ==> UrlInv(g, s0, w))
  }

  /** What only ever grows or stays while the others act. */
  ghost predicate Later(w: World, v: World) {
    && (Live(w) ==> Live(v) && w.kode.value.generation <= v.kode.value.generation && (w.kode.value.deleting ==> v.kode.value.deleting))
    && (v.kode.Some? ==> w.kode.Some? && w.kode.value.generation <= v.kode.value.generation)
    && v.owned == w.owned && v.released == w.released
    && (w.route.Some? ==> v.route == w.route)
    && (forall key :: !Exists(w.children, key) ==> !Exists(v.children, key))
  }

  // ---- the others keep the invariants ----

  lemma EpFailingKeepsConditions(run: EpRun, e: Err, now: nat)
    requires HasAll(run.kode.status)
    ensures HasAll(EpFailing(run, e, now).kode.status)
  {
    C.SetMeaning(run.kode.status.conditions, Condition(Error, True, ReconciliationFailed, now));
  }

  lemma EpEnsuredKeepsConditions(run: EpRun, now: nat)
    ensures HasAll(EpEnsured(run, now).kode.status)
  {
    var cs := run.kode.status.conditions;
    var a := C.Set(cs, Condition(Ready, True, HTTPRoutesEnsured, now));
    var b := C.Set(a, Condition(Available, True, HTTPRoutesEnsured, now));
    C.SetMeaning(cs, Condition(Ready, True, HTTPRoutesEnsured, now));
    C.SetMeaning(a, Condition(Available, True, HTTPRoutesEnsured, now));
    C.SetMeaning(b, Condition(Progressing, False, HTTPRoutesEnsured, now));
  }

  lemma EpPublishingKeepsConditions(run: EpRun, now: nat)
    requires HasAll(run.kode.status)
    ensures HasAll(EpPublishing(run, now).kode.status)
  {
    C.SetMeaning(run.kode.status.conditions, Condition(Available, True, ResourcesReady, now));
  }

  lemma EpKeepsStatusInv(g: Setting, w: World, ok: bool, now: nat)
    requires StatusInv(w)
    ensures StatusInv(EpAdvance(g, w, ok, now))
  {
    hide C.Get, C.Set, C.Has, HasAll, FindEntryPoint;
    if w.ep.Some? {
      var run := w.ep.value;
      var e := match FindEntryPoint(g, run.kode.spec)
               case Bad(e) => e
               case Ok(_) => BadRouting;
      if run.pc != Fail {
        EpFailingKeepsConditions(run, Refused, now);
        EpFailingKeepsConditions(run, e, now);
        EpFailingKeepsConditions(run, BadRouting, now);
        EpPublishingKeepsConditions(run, now);
      }
      EpEnsuredKeepsConditions(run, now);
    }
  }

  lemma ActKeepsStatusInv(g: Setting, w: World, a: Act, now: nat)
    requires StatusInv(w)
    ensures StatusInv(Act1(g, w, a, now))
  {
    assert w.kode.Some? && w.kode.value.status.phase == Active ==> w.kode.value.status.retryCount == 0 by { hide HasAll; }
    hide EpAdvance, Remove, StatusOk;
    if a.EpStep? {
      EpKeepsStatusInv(g, w, a.ok, now);
    }
  }

  lemma ActIsLater(g: Setting, w: World, a: Act, now: nat)
    requires StatusInv(w)
    ensures Later(w, Act1(g, w, a, now))
  {
    hide EpLookup, EpFailing, EpEnsured, EpPublishing, StatusOk;
  }

  lemma ActKeepsOrphanInv(g: Setting, w: World, a: Act, now: nat)
    requires StatusInv(w) && OrphanInv(g, w)
    ensures OrphanInv(g, Act1(g, w, a, now))
  {
    hide EpAdvance, EpStart, EditKode, RequestDeletion, SetChildren, Act1, R.RequiredAbsent, StatusOk;
    ActIsLater(g, w, a, now);
    ActLeavesFinalizer(g, w, a, now);
  }

  /** None of the others puts a finalizer on. */
  lemma ActLeavesFinalizer(g: Setting, w: World, a: Act, now: nat)
    ensures !Live(w) ==> !Live(Act1(g, w, a, now))
  {
    hide EpLookup, EpFailing, EpEnsured, EpPublishing;
  }

  lemma ActKeepsNamesInv(g: Setting, s0: KodeSpec, w: World, a: Act, now: nat)
    requires NamesInv(g, s0, w)
    requires a.Edit? ==> SameNames(a.spec, s0)
    ensures NamesInv(g, s0, Act1(g, w, a, now))
  {
    hide EpLookup, EpFailing, EpEnsured, EpPublishing, OwnUnder, SameNames, Remove;
  }

  /** None of the three local changes touches the reference or the port; only publishing sets the URL. */
  lemma EpCopies(run: EpRun, e: Err, now: nat)
    ensures var f := EpFailing(run, e, now);
            f.pc == Fail && f.kode.spec == run.kode.spec
            && f.kode.status.kodeUrl == run.kode.status.kodeUrl && f.kode.status.kodePort == run.kode.status.kodePort
    ensures var f := EpEnsured(run, now);
            f.pc == Report && f.kode.spec == run.kode.spec && f.url == run.url
            && f.kode.status.kodeUrl == run.kode.status.kodeUrl && f.kode.status.kodePort == run.kode.status.kodePort
    ensures var f := EpPublishing(run, now);
            f.pc == Publish && f.kode.spec == run.kode.spec && f.url == run.url
            && f.kode.status.kodeUrl == run.url && f.kode.status.kodePort == run.kode.status.kodePort
  {
  }

  /** What the lookup leaves: nothing, a failure to report, or a URL to route with a port. */
  lemma EpLookupCopies(g: Setting, run: EpRun, ok: bool, now: nat)
    ensures var r := EpLookup(g, run, ok, now);
            r.Some? ==>
              && r.value.kode.spec == run.kode.spec
              && r.value.kode.status.kodeUrl == run.kode.status.kodeUrl && r.value.kode.status.kodePort == run.kode.status.kodePort
              && (r.value.pc == Fail
                  || (r.value.pc == EnsureRoute && r.value.url.Some? && r.value.url == TheUrl(g, run.kode.spec) && run.kode.status.kodePort != 0))
  {
    hide C.Set, FindEntryPoint, GenerateUrl;
  }

  lemma EpKeepsUrlInv(g: Setting, s0: KodeSpec, w: World, ok: bool, now: nat)
    requires UrlInv(g, s0, w)
    ensures UrlInv(g, s0, EpAdvance(g, w, ok, now))
  {
    if w.ep.Some? {
      var run := w.ep.value;
      SameRefSameUrl(g, run.kode.spec, s0);
      EpLookupCopies(g, run, ok, now);
      EpCopies(run, Refused, now);
      hide ThePort, TheUrl, EpLookup, EpFailing, EpEnsured, EpPublishing;
    }
  }

  lemma SameRefSameUrl(g: Setting, a: KodeSpec, b: KodeSpec)
    requires a.templateRef == b.templateRef
    ensures TheUrl(g, a) == TheUrl(g, b)
  {
    assert FindEntryPoint(g, a) == FindEntryPoint(g, b);
    hide FindEntryPoint, GenerateUrl;
  }

  lemma ActKeepsUrlInv(g: Setting, s0: KodeSpec, w: World, a: Act, now: nat)
    requires UrlInv(g, s0, w)
    requires a.Edit? ==> a.spec.templateRef == s0.templateRef
    ensures UrlInv(g, s0, Act1(g, w, a, now))
  {
    hide EpAdvance, ThePort, TheUrl;
    if a.EpStep? {
      EpKeepsUrlInv(g, s0, w, a.ok, now);
    }
  }

  /** Any number of steps of the others keeps every invariant. */
  lemma {:induction false} OthersKeep(g: Setting, s0: KodeSpec, w: World, acts: seq<Act>, now: nat)
    requires Inv(g, s0, w)
    requires KeepsNames(g, s0) ==> forall i :: 0 <= i < |acts| && acts[i].Edit? ==> SameNames(acts[i].spec, s0)
    requires KeepsRef(g, s0) ==> forall i :: 0 <= i < |acts| && acts[i].Edit? ==> acts[i].spec.templateRef == s0.templateRef
    ensures Inv(g, s0, Others(g, w, acts, now))
    ensures Later(w, Others(g, w, acts, now))
    decreases |acts|
  {
    hide StatusInv, OrphanInv, NamesInv, UrlInv, SameNames, KeepsNames, KeepsRef, Act1;
    if acts != [] {
      var v := Act1(g, w, acts[0], now);
      ActKeepsStatusInv(g, w, acts[0], now);
      ActIsLater(g, w, acts[0], now);
      ActKeepsOrphanInv(g, w, acts[0], now);
      if KeepsNames(g, s0) { ActKeepsNamesInv(g, s0, w, acts[0], now); }
      if KeepsRef(g, s0) { ActKeepsUrlInv(g, s0, w, acts[0], now); }
      OthersKeep(g, s0, v, acts[1..], now);
    }
  }

  lemma EnterKeeps(g: Setting, s0: KodeSpec, y: Sys)
    requires Inv(g, s0, y.w)
    ensures Inv(g, s0, Enter(g, y).w)
    ensures Later(y.w, Enter(g, y).w)
  {
    hide Inv, Later, Others;
    OthersKeep(g, s0, y.w, g.script(y.t).acts, y.t);
  }
}

/** The views of a child agree: what the ensure steps make passes validation and the secret and service
    checks, so that readiness is left to replicas, the claim's binding and pods; and where they do not. */
module Agreement {
  import opened KodeTypes
  import opened Cluster
  import opened Desired
  import opened Resources
  import opened Convergence
  import S = ChildResources
  import T = Templates

  function TemplateOf(g: Setting, spec: KodeSpec): Template
    requires T.Visible(g.store, spec.templateRef).Ok?
  {
    T.Visible(g.store, spec.templateRef).value
  }

  /** The configuration the handlers work with. */
  function ConfigOf(g: Setting, spec: KodeSpec): Config
    requires T.Visible(g.store, spec.templateRef).Ok?
  {
    InitConfig(g.name, spec, TemplateOf(g, spec))
  }

  // ---- validity and readiness, read off the children ----

  predicate ClaimValid(g: Setting, c: Children, spec: KodeSpec) {
    ManagesClaim(spec) ==>
      var claim := ClaimAt(c, ClaimName(g.name, spec));
      claim.Some? && Desired.ValidateClaim(claim.value, spec.storage.value).None?
  }

  predicate ValidNow(g: Setting, c: Children, spec: KodeSpec, cfg: Config) {
    && SecretAt(c, SecretName(g.name, spec)).Some? && SecretValid(SecretAt(c, SecretName(g.name, spec)).value, spec, cfg)
    && c.service.Some? && ServiceValid(c.service.value, cfg)
    && c.stateful.Some? && SetValid(c.stateful.value, cfg)
    && ClaimValid(g, c, spec)
  }

  predicate ReadyNow(g: Setting, c: Children, spec: KodeSpec, cfg: Config) {
    && SecretAt(c, SecretName(g.name, spec)).Some? && SecretHasFields(SecretAt(c, SecretName(g.name, spec)).value, spec)
    && c.service.Some? && ServiceHasPort(c.service.value, cfg)
    && c.stateful.Some? && c.stateful.value.readyReplicas == c.stateful.value.replicas
    && (ManagesClaim(spec) ==> ClaimAt(c, ClaimName(g.name, spec)).Some? && ClaimAt(c, ClaimName(g.name, spec)).value.bound)
    && PodsReady(c.pods, cfg.labels)
  }

  // ---- an error-free run in which only the environment and the EntryPoint controller act ----

  predicate SameSet(a: Option<StatefulSet>, b: Option<StatefulSet>) {
    if a.Some? then b.Some? && b.value == a.value.(readyReplicas := b.value.readyReplicas) else b.None?
  }

  ghost predicate SameClaims(a: map<string, Claim>, b: map<string, Claim>) {
    a.Keys == b.Keys && forall n :: n in a ==> b[n] == a[n].(bound := b[n].bound)
  }

  /** What the environment may change of children none of which is being deleted. The EntryPoint controller
      changes no child, and while it is idle nothing else either. */
  ghost predicate Drift(w: World, v: World) {
    && v == w.(children := v.children, kode := v.kode, ep := v.ep, route := v.route)
    && (Idle(w) ==> v == w.(children := v.children))
    && v.children.secrets == w.children.secrets && v.children.service == w.children.service
    && SameSet(w.children.stateful, v.children.stateful) && SameClaims(w.children.claims, v.children.claims)
    && v.children.terminating == {} == w.children.terminating
  }

  lemma ActDrifts(g: Setting, w: World, a: Act, now: nat)
    requires w.children.terminating == {} && (Environmental(a) || Entrant(a))
    ensures Drift(w, Act1(g, w, a, now))
  {
    hide EpLookup, EpFailing, EpEnsured, EpPublishing;
  }

  lemma {:induction false} OthersDrift(g: Setting, w: World, acts: seq<Act>, now: nat)
    requires w.children.terminating == {} && forall i :: 0 <= i < |acts| ==> Environmental(acts[i]) || Entrant(acts[i])
    ensures Drift(w, Others(g, w, acts, now))
    decreases |acts|
  {
    if acts != [] {
      ActDrifts(g, w, acts[0], now);
      hide Act1, Environmental, Entrant;
      OthersDrift(g, Act1(g, w, acts[0], now), acts[1..], now);
    }
  }

  lemma EnterDrifts(g: Setting, y: Sys)
    requires Friendly(g) && y.w.children.terminating == {}
    ensures Up(g, y) && Drift(y.w, Enter(g, y).w) && Enter(g, y).log == y.log
  {
    hide Others, Drift, Environmental, Entrant;
    OthersDrift(g, y.w, g.script(y.t).acts, y.t);
  }

  lemma DriftsOn(u: World, v: World, w: World)
    requires Drift(u, v) && Drift(v, w)
    ensures Drift(u, w)
  {
  }

  lemma EnterQuiet(g: Setting, y: Sys)
    requires Quiet(g)
    ensures Up(g, y) && Enter(g, y) == y.(t := y.t + 1)
  {
  }

  /** Validity does not depend on what drifts. */
  lemma DriftKeepsValid(g: Setting, w: World, v: World, spec: KodeSpec, cfg: Config)
    requires Drift(w, v)
    ensures var s, t := SecretAt(w.children, SecretName(g.name, spec)), SecretAt(v.children, SecretName(g.name, spec)); s == t
    ensures w.children.service == v.children.service
    ensures w.children.stateful.Some? == v.children.stateful.Some?
            && (w.children.stateful.Some? ==> SetValid(w.children.stateful.value, cfg) == SetValid(v.children.stateful.value, cfg))
    ensures ClaimValid(g, w.children, spec) == ClaimValid(g, v.children, spec)
  {
    hide SecretName, ClaimName, ManagesClaim, MatchingModes;
  }

  lemma ValidateMeaning(g: Setting, y: Sys, spec: KodeSpec, cfg: Config)
    requires Friendly(g) && y.w.children.terminating == {} && cfg.spec == spec
    ensures var v := ValidateConfiguration(g, y, spec, cfg);
            Drift(y.w, v.y.w) && v.y.log == y.log && (v.err.None? <==> ValidNow(g, y.w.children, spec, cfg))
  {
    hide Friendly, Enter, Up, SecretValid, ServiceValid, SetValid, Desired.ValidateClaim, SecretName, ClaimName,
      SameSet, SameClaims;
    EnterDrifts(g, y);
    DriftKeepsValid(g, y.w, Enter(g, y).w, spec, cfg);
    var a := ValidateSecret(g, y, spec, cfg);
    EnterDrifts(g, a.y);
    var b := ValidateService(g, a.y, cfg);
    DriftsOn(y.w, a.y.w, b.y.w);
    DriftKeepsValid(g, y.w, b.y.w, spec, cfg);
    EnterDrifts(g, b.y);
    var c := ValidateSet(g, b.y, cfg);
    DriftsOn(y.w, b.y.w, c.y.w);
    DriftKeepsValid(g, y.w, c.y.w, spec, cfg);
    EnterDrifts(g, c.y);
    var d := ValidatePVC(g, c.y, spec, cfg);
    DriftsOn(y.w, c.y.w, Enter(g, c.y).w);
    DriftKeepsValid(g, y.w, Enter(g, c.y).w, spec, cfg);
  }

  lemma ChecksStep(g: Setting, y: Sys, spec: KodeSpec, cfg: Config, checks: seq<Check>)
    requires checks != []
    ensures RunChecks(g, y, spec, cfg, checks) ==
            (var r := RunCheck(g, y, spec, cfg, checks[0]);
             if r.out.Bad? || !r.out.value then r else RunChecks(g, r.y, spec, cfg, checks[1..]))
  {
    hide RunCheck;
  }

  /** What one check looks for. */
  predicate CheckNow(g: Setting, c: Children, spec: KodeSpec, cfg: Config, check: Check) {
    match check
    case CheckSecret => SecretAt(c, SecretName(g.name, spec)).Some? && SecretHasFields(SecretAt(c, SecretName(g.name, spec)).value, spec)
    case CheckService => c.service.Some? && ServiceHasPort(c.service.value, cfg)
    case CheckSet => c.stateful.Some? && c.stateful.value.readyReplicas == c.stateful.value.replicas
    case CheckPVC => ManagesClaim(spec) ==> ClaimAt(c, ClaimName(g.name, spec)).Some? && ClaimAt(c, ClaimName(g.name, spec)).value.bound
    case CheckPods => PodsReady(c.pods, cfg.labels)
  }

  /** Every check is one call, but the claim's is none where the operator manages no claim. */
  predicate Asks(spec: KodeSpec, check: Check) { check != CheckPVC || ManagesClaim(spec) }

  lemma CheckAnswers(g: Setting, y: Sys, spec: KodeSpec, cfg: Config, check: Check)
    ensures var r := RunCheck(g, y, spec, cfg, check);
            && r.y == (if Asks(spec, check) then Enter(g, y) else y)
            && (r.out == Ok(true) <==> Asks(spec, check) ==> Up(g, y) && CheckNow(g, Enter(g, y).w.children, spec, cfg, check))
  {
    hide Enter, Up, SecretHasFields, ServiceHasPort, PodsReady, SecretName, ClaimName, ManagesClaim;
  }

  /** The state the check at this place of the list finds before its call. */
  function Before(g: Setting, y: Sys, spec: KodeSpec, checks: seq<Check>, i: nat): Sys
    requires i <= |checks|
    decreases i
  {
    if i == 0 then y else Before(g, if Asks(spec, checks[0]) then Enter(g, y) else y, spec, checks[1..], i - 1)
  }

  ghost predicate AllAnswered(g: Setting, y: Sys, spec: KodeSpec, cfg: Config, checks: seq<Check>) {
    forall i :: 0 <= i < |checks| && Asks(spec, checks[i]) ==>
      var z := Before(g, y, spec, checks, i); Up(g, z) && CheckNow(g, Enter(g, z).w.children, spec, cfg, checks[i])
  }

  lemma AnsweredStep(g: Setting, y: Sys, spec: KodeSpec, cfg: Config, checks: seq<Check>)
    requires checks != []
    ensures AllAnswered(g, y, spec, cfg, checks) <==>
            && (Asks(spec, checks[0]) ==> Up(g, y) && CheckNow(g, Enter(g, y).w.children, spec, cfg, checks[0]))
            && AllAnswered(g, if Asks(spec, checks[0]) then Enter(g, y) else y, spec, cfg, checks[1..])
  {
    hide Enter, Up, CheckNow, Asks;
    var z := if Asks(spec, checks[0]) then Enter(g, y) else y;
    assert Before(g, y, spec, checks, 0) == y;
    forall i | 0 <= i < |checks| - 1
      ensures Before(g, y, spec, checks, i + 1) == Before(g, z, spec, checks[1..], i) && checks[1..][i] == checks[i + 1]
    {
    }
    if AllAnswered(g, y, spec, cfg, checks) {
      forall i | 0 <= i < |checks[1..]| && Asks(spec, checks[1..][i])
        ensures var x := Before(g, z, spec, checks[1..], i); Up(g, x) && CheckNow(g, Enter(g, x).w.children, spec, cfg, checks[1..][i])
      {
        assert Asks(spec, checks[i + 1]);
      }
    }
    if AllAnswered(g, z, spec, cfg, checks[1..])
       && (Asks(spec, checks[0]) ==> Up(g, y) && CheckNow(g, Enter(g, y).w.children, spec, cfg, checks[0]))
    {
      forall i | 0 <= i < |checks| && Asks(spec, checks[i])
        ensures var x := Before(g, y, spec, checks, i); Up(g, x) && CheckNow(g, Enter(g, x).w.children, spec, cfg, checks[i])
      {
        if i > 0 {
          assert Asks(spec, checks[1..][i - 1]);
        }
      }
    }
  }

  lemma {:induction false} ChecksAnswer(g: Setting, y: Sys, spec: KodeSpec, cfg: Config, checks: seq<Check>)
    ensures RunChecks(g, y, spec, cfg, checks).out == Ok(true) <==> AllAnswered(g, y, spec, cfg, checks)
    decreases |checks|
  {
    if checks == [] {
      hide RunCheck;
    } else {
      hide RunCheck, RunChecks, Enter, Up, CheckNow, Asks, AllAnswered;
      CheckAnswers(g, y, spec, cfg, checks[0]);
      AnsweredStep(g, y, spec, cfg, checks);
      ChecksStep(g, y, spec, cfg, checks);
      ChecksAnswer(g, if Asks(spec, checks[0]) then Enter(g, y) else y, spec, cfg, checks[1..]);
    }
  }

  /** The check at this place gets through and finds its part ready, at its own call. */
  ghost predicate Answers(g: Setting, y: Sys, spec: KodeSpec, cfg: Config, checks: seq<Check>, i: nat)
    requires i < |checks|
  {
    Asks(spec, checks[i]) ==>
      var z := Before(g, y, spec, checks, i); Up(g, z) && CheckNow(g, Enter(g, z).w.children, spec, cfg, checks[i])
  }

  /** The check at this place gets through and finds its part not ready, at its own call. */
  ghost predicate Denies(g: Setting, y: Sys, spec: KodeSpec, cfg: Config, checks: seq<Check>, i: nat)
    requires i < |checks|
  {
    Asks(spec, checks[i]) && var z := Before(g, y, spec, checks, i); Up(g, z) && !CheckNow(g, Enter(g, z).w.children, spec, cfg, checks[i])
  }

  /** One check says no, after all before it have said yes. */
  ghost predicate Denied(g: Setting, y: Sys, spec: KodeSpec, cfg: Config, checks: seq<Check>) {
    exists j: nat :: j < |checks| && Denies(g, y, spec, cfg, checks, j) && forall i: nat :: i < j ==> Answers(g, y, spec, cfg, checks, i)
  }

  lemma CheckDenies(g: Setting, y: Sys, spec: KodeSpec, cfg: Config, check: Check)
    ensures RunCheck(g, y, spec, cfg, check).out == Ok(false) <==>
              Asks(spec, check) && Up(g, y) && !CheckNow(g, Enter(g, y).w.children, spec, cfg, check)
  {
    hide Enter, Up, SecretHasFields, ServiceHasPort, PodsReady, SecretName, ClaimName, ManagesClaim;
  }

  lemma LaterCheck(g: Setting, y: Sys, spec: KodeSpec, cfg: Config, checks: seq<Check>, i: nat)
    requires i < |checks| - 1
    ensures var z := if Asks(spec, checks[0]) then Enter(g, y) else y;
            && (Answers(g, y, spec, cfg, checks, i + 1) <==> Answers(g, z, spec, cfg, checks[1..], i))
            && (Denies(g, y, spec, cfg, checks, i + 1) <==> Denies(g, z, spec, cfg, checks[1..], i))
  {
    hide Enter, Up, CheckNow, Asks;
    assert checks[1..][i] == checks[i + 1];
  }

  lemma DeniedStep(g: Setting, y: Sys, spec: KodeSpec, cfg: Config, checks: seq<Check>)
    requires checks != []
    ensures Denied(g, y, spec, cfg, checks) <==>
            || Denies(g, y, spec, cfg, checks, 0)
            || (Answers(g, y, spec, cfg, checks, 0) && Denied(g, if Asks(spec, checks[0]) then Enter(g, y) else y, spec, cfg, checks[1..]))
  {
    hide Enter, Up, CheckNow, Asks, Answers, Denies;
    var z := if Asks(spec, checks[0]) then Enter(g, y) else y;
    forall i: nat | i < |checks| - 1
      ensures Answers(g, y, spec, cfg, checks, i + 1) <==> Answers(g, z, spec, cfg, checks[1..], i)
      ensures Denies(g, y, spec, cfg, checks, i + 1) <==> Denies(g, z, spec, cfg, checks[1..], i)
    {
      LaterCheck(g, y, spec, cfg, checks, i);
    }
    if Denied(g, y, spec, cfg, checks) {
      var j: nat :| j < |checks| && Denies(g, y, spec, cfg, checks, j) && forall i: nat :: i < j ==> Answers(g, y, spec, cfg, checks, i);
      if j > 0 {
        assert Denies(g, z, spec, cfg, checks[1..], j - 1);
        forall i: nat | i < j - 1 ensures Answers(g, z, spec, cfg, checks[1..], i) {
          assert Answers(g, y, spec, cfg, checks, i + 1);
        }
      }
    }
    if Answers(g, y, spec, cfg, checks, 0) && Denied(g, z, spec, cfg, checks[1..]) {
      var j: nat :| j < |checks[1..]| && Denies(g, z, spec, cfg, checks[1..], j) && forall i: nat :: i < j ==> Answers(g, z, spec, cfg, checks[1..], i);
      assert Denies(g, y, spec, cfg, checks, j + 1);
      forall i: nat | i < j + 1 ensures Answers(g, y, spec, cfg, checks, i) {
        if i > 0 { assert Answers(g, z, spec, cfg, checks[1..], i - 1); }
      }
    }
  }

  /** The answer is no if and only if one check says no at its own call, after all before it have said yes. */
  lemma {:induction false} ChecksDeny(g: Setting, y: Sys, spec: KodeSpec, cfg: Config, checks: seq<Check>)
    ensures RunChecks(g, y, spec, cfg, checks).out == Ok(false) <==> Denied(g, y, spec, cfg, checks)
    decreases |checks|
  {
    if checks == [] {
      hide RunCheck;
    } else {
      hide RunCheck, RunChecks, Enter, Up, CheckNow, Asks, Denied;
      CheckAnswers(g, y, spec, cfg, checks[0]);
      CheckDenies(g, y, spec, cfg, checks[0]);
      DeniedStep(g, y, spec, cfg, checks);
      ChecksStep(g, y, spec, cfg, checks);
      assert Before(g, y, spec, checks, 0) == y;
      ChecksDeny(g, if Asks(spec, checks[0]) then Enter(g, y) else y, spec, cfg, checks[1..]);
    }
  }

  /** Whatever the others do between the five checks, and whichever calls fail: the answer is yes if and only
      if every check got through and found its part ready at its own call. */
  lemma ReadyAtEachCall(g: Setting, y: Sys, spec: KodeSpec, cfg: Config)
    ensures CheckResourcesReady(g, y, spec, cfg).out == Ok(true) <==>
            forall i :: 0 <= i < |CHECKS| && Asks(spec, CHECKS[i]) ==>
              var z := Before(g, y, spec, CHECKS, i); Up(g, z) && CheckNow(g, Enter(g, z).w.children, spec, cfg, CHECKS[i])
  {
    hide RunChecks, Enter, Up, CheckNow, Asks;
    ChecksAnswer(g, y, spec, cfg, CHECKS);
  }

  lemma CheckMeaning(g: Setting, y: Sys, spec: KodeSpec, cfg: Config, check: Check)
    requires Quiet(g)
    ensures var r := RunCheck(g, y, spec, cfg, check);
            r.y.w == y.w && r.y.log == y.log && r.out == Ok(CheckNow(g, y.w.children, spec, cfg, check))
  {
    EnterQuiet(g, y);
    hide Quiet, Enter, Up, SecretHasFields, ServiceHasPort, PodsReady, SecretName, ClaimName;
  }

  /** So in a quiet cluster checkResourcesReady answers whether the children are ready. */
  lemma ReadyMeaning(g: Setting, y: Sys, spec: KodeSpec, cfg: Config)
    requires Quiet(g)
    ensures var r := CheckResourcesReady(g, y, spec, cfg);
            r.y.w == y.w && r.y.log == y.log && r.out == Ok(ReadyNow(g, y.w.children, spec, cfg))
  {
    hide Quiet, RunCheck, RunChecks, SecretHasFields, ServiceHasPort, PodsReady, SecretName, ClaimName;
    var c4: seq<Check> := [CheckPods];
    var c3: seq<Check> := [CheckPVC, CheckPods];
    var c2: seq<Check> := [CheckSet, CheckPVC, CheckPods];
    var c1: seq<Check> := [CheckService, CheckSet, CheckPVC, CheckPods];
    assert CHECKS[1..] == c1 && c1[1..] == c2 && c2[1..] == c3 && c3[1..] == c4 && c4[1..] == [];
    ChecksStep(g, y, spec, cfg, CHECKS);
    CheckMeaning(g, y, spec, cfg, CheckSecret);
    var y1 := RunCheck(g, y, spec, cfg, CheckSecret).y;
    ChecksStep(g, y1, spec, cfg, c1);
    CheckMeaning(g, y1, spec, cfg, CheckService);
    var y2 := RunCheck(g, y1, spec, cfg, CheckService).y;
    ChecksStep(g, y2, spec, cfg, c2);
    CheckMeaning(g, y2, spec, cfg, CheckSet);
    var y3 := RunCheck(g, y2, spec, cfg, CheckSet).y;
    ChecksStep(g, y3, spec, cfg, c3);
    CheckMeaning(g, y3, spec, cfg, CheckPVC);
    var y4 := RunCheck(g, y3, spec, cfg, CheckPVC).y;
    ChecksStep(g, y4, spec, cfg, c4);
    CheckMeaning(g, y4, spec, cfg, CheckPods);
    NoChecks(g, RunCheck(g, y4, spec, cfg, CheckPods).y, spec, cfg);
  }

  lemma NoChecks(g: Setting, y: Sys, spec: KodeSpec, cfg: Config)
    ensures RunChecks(g, y, spec, cfg, []) == Ret(y, Ok(true))
  {
  }

  // ---- fresh children ----

  /** The operator has not made a child for this part. A claim the user names is not the operator's: it may
      exist, with any contents. */
  predicate NotYet(g: Setting, c: Children, spec: KodeSpec, p: Part) {
    match p
    case SecretPart => SecretAt(c, SecretName(g.name, spec)).None?
    case ServicePart => c.service.None?
    case SetPart => c.stateful.None?
    case ClaimPart => ManagesClaim(spec) ==> ClaimAt(c, ClaimName(g.name, spec)).None?
  }

  predicate NoneYet(g: Setting, c: Children, spec: KodeSpec) {
    NotYet(g, c, spec, SecretPart) && NotYet(g, c, spec, ServicePart) && NotYet(g, c, spec, SetPart) && NotYet(g, c, spec, ClaimPart)
  }

  /** What the ensure step for this part makes, whatever the environment has done since to readiness,
      binding and pods. */
  predicate PartMade(g: Setting, c: Children, spec: KodeSpec, cfg: Config, p: Part) {
    match p
    case SecretPart => SecretAt(c, SecretName(g.name, spec)) == Some(Secret(DesiredData(cfg.credentials), cfg.labels))
    case ServicePart => c.service == Some(DesiredService(cfg))
    case SetPart => c.stateful.Some? && Ok(c.stateful.value.(readyReplicas := 0)) == DesiredSet(g.lib, g.name, cfg)
    case ClaimPart =>
      var claim := ClaimAt(c, ClaimName(g.name, spec));
      spec.storage.Some? && claim.Some? && Ok(claim.value.(bound := false)) == DesiredClaim(spec.storage.value)
  }

  predicate Made(g: Setting, c: Children, spec: KodeSpec, cfg: Config) {
    && PartMade(g, c, spec, cfg, SecretPart) && PartMade(g, c, spec, cfg, ServicePart) && PartMade(g, c, spec, cfg, SetPart)
    && (if WantsClaim(spec) then PartMade(g, c, spec, cfg, ClaimPart) else NotYet(g, c, spec, ClaimPart))
  }

  /** How an apply from nothing ends: with an unknown template type or with storage that has no resources it
      fails, the latter by a nil dereference; otherwise everything is made. */
  function FreshOutcome(spec: KodeSpec, cfg: Config): Outcome<Config> {
    if cfg.template.spec.kind == OtherType then Bad(UnknownType)
    else if WantsClaim(spec) && spec.storage.value.resources.None? then Bad(NilPointer)
    else Ok(cfg)
  }

  lemma DriftKeepsNone(g: Setting, w: World, v: World, spec: KodeSpec)
    requires Drift(w, v)
    ensures forall p :: NotYet(g, w.children, spec, p) ==> NotYet(g, v.children, spec, p)
  {
    hide SecretName, ClaimName;
  }

  lemma DriftKeepsParts(g: Setting, w: World, v: World, spec: KodeSpec, cfg: Config)
    requires Drift(w, v)
    ensures forall p :: NotYet(g, w.children, spec, p) ==> NotYet(g, v.children, spec, p)
    ensures forall p :: PartMade(g, w.children, spec, cfg, p) ==> PartMade(g, v.children, spec, cfg, p)
  {
    hide DesiredSet, DesiredData, DesiredService, SecretName, ClaimName;
  }

  function AllParts(spec: KodeSpec): set<Part> { {SecretPart, ServicePart, SetPart} + if WantsClaim(spec) then {ClaimPart} else {} }

  lemma DetectNone(g: Setting, y: Sys, spec: KodeSpec, cfg: Config)
    requires Friendly(g) && y.w.children.terminating == {} && cfg.spec == spec && NoneYet(g, y.w.children, spec)
    ensures var d := DetectChanges(g, y, spec, cfg);
            Drift(y.w, d.y.w) && d.y.log == y.log && d.out == Ok(AllParts(spec))
  {
    hide Friendly, Enter, Up, SecretName, ClaimName, StorageIsEmpty, SameSet, SameClaims, PartMade, DesiredSet;
    EnterDrifts(g, y);
    DriftKeepsParts(g, y.w, Enter(g, y).w, spec, cfg);
    var a := DetectSecret(g, y, spec, cfg);
    EnterDrifts(g, a.y);
    DriftKeepsParts(g, a.y.w, Enter(g, a.y).w, spec, cfg);
    var b := DetectService(g, a.y, cfg);
    DriftsOn(y.w, a.y.w, b.y.w);
    EnterDrifts(g, b.y);
    DriftKeepsParts(g, b.y.w, Enter(g, b.y).w, spec, cfg);
    var c := DetectSet(g, b.y, cfg);
    assert c.out == Ok(true);
    DriftsOn(y.w, b.y.w, c.y.w);
    EnterDrifts(g, c.y);
    DriftKeepsParts(g, c.y.w, Enter(g, c.y).w, spec, cfg);
    DriftsOn(y.w, c.y.w, Enter(g, c.y).w);
    assert Mark(SecretPart, true) + Mark(ServicePart, true) + Mark(SetPart, true) == {SecretPart, ServicePart, SetPart};
    assert AllParts(spec) == {SecretPart, ServicePart, SetPart} + Mark(ClaimPart, WantsClaim(spec));
    assert !WantsClaim(spec) ==> AllParts(spec) == {SecretPart, ServicePart, SetPart};
  }

  /** One ensure step for a part that is not there yet. */
  lemma EnsureMakes(g: Setting, y: Sys, spec: KodeSpec, cfg: Config, p: Part)
    requires Friendly(g) && y.w.children.terminating == {} && OwnSecret(spec, cfg) && NotYet(g, y.w.children, spec, p)
    requires p == ClaimPart ==> WantsClaim(spec)
    ensures var r := EnsurePart(g, y, spec, cfg, p);
            && (Idle(y.w) ==> r.y.w.kode == y.w.kode && r.y.w.ep == y.w.ep) && r.y.log == y.log && r.y.w.children.terminating == {}
            && r.out == (if p == SetPart && cfg.template.spec.kind == OtherType then Bad(UnknownType)
                         else if p == ClaimPart && spec.storage.value.resources.None? then Bad(NilPointer)
                         else Ok(cfg))
            && (r.out.Ok? ==> PartMade(g, r.y.w.children, spec, cfg, p))
            && (forall q :: q != p && NotYet(g, y.w.children, spec, q) ==> NotYet(g, r.y.w.children, spec, q))
            && (forall q :: q != p && PartMade(g, y.w.children, spec, cfg, q) ==> PartMade(g, r.y.w.children, spec, cfg, q))
  {
    hide Friendly, Enter, Up, SecretName, ClaimName, StorageIsEmpty, SameSet, SameClaims, DesiredData, DesiredService,
      PodTemplateOf;
    EnterDrifts(g, y);
    DriftKeepsParts(g, y.w, Enter(g, y).w, spec, cfg);
  }

  lemma ApplyFresh(g: Setting, y: Sys, spec: KodeSpec, cfg: Config)
    requires Friendly(g) && y.w.children.terminating == {} && OwnSecret(spec, cfg) && NoneYet(g, y.w.children, spec)
    ensures var a := ApplyConfiguration(g, y, spec, cfg, AllParts(spec));
            && a.out == FreshOutcome(spec, cfg)
            && (Idle(y.w) ==> a.y.w.kode == y.w.kode && a.y.w.ep == y.w.ep) && a.y.log == y.log && a.y.w.children.terminating == {}
            && (a.out.Ok? ==> Made(g, a.y.w.children, spec, cfg))
  {
    var changes := AllParts(spec);
    hide Friendly, Enter, Up, ApplyParts, EnsurePart, NotYet, PartMade, OwnSecret;
    var o3: seq<Part> := [ClaimPart];
    var o2: seq<Part> := [SetPart, ClaimPart];
    var o1: seq<Part> := [ServicePart, SetPart, ClaimPart];
    assert ORDER[1..] == o1 && o1[1..] == o2 && o2[1..] == o3 && o3[1..] == [];
    S.ApplyStep(g, y, spec, cfg, changes, ORDER);
    EnsureMakes(g, y, spec, cfg, SecretPart);
    var y1 := EnsurePart(g, y, spec, cfg, SecretPart).y;
    S.ApplyStep(g, y1, spec, cfg, changes, o1);
    EnsureMakes(g, y1, spec, cfg, ServicePart);
    var y2 := EnsurePart(g, y1, spec, cfg, ServicePart).y;
    S.ApplyStep(g, y2, spec, cfg, changes, o2);
    EnsureMakes(g, y2, spec, cfg, SetPart);
    var y3 := EnsurePart(g, y2, spec, cfg, SetPart).y;
    S.ApplyStep(g, y3, spec, cfg, changes, o3);
    if WantsClaim(spec) { EnsureMakes(g, y3, spec, cfg, ClaimPart); }
    S.ApplyDone(g, y3, spec, cfg, changes);
    S.ApplyDone(g, EnsurePart(g, y3, spec, cfg, ClaimPart).y, spec, cfg, changes);
  }

  lemma MadeSetIsValid(g: Setting, c: Children, spec: KodeSpec, cfg: Config)
    requires Made(g, c, spec, cfg) && cfg.spec == spec
    ensures SetValid(c.stateful.value, cfg) && c.stateful.value.replicas == 1
  {
    var s := c.stateful.value;
    hide PluginContainers, MainEnv, SecretName, ClaimName, StorageIsEmpty, DesiredData;
    assert s.containers[0] == MainContainer(g.lib, cfg);
    if spec.storage.Some? {
      assert s.containers[0].mounts[0].name == STORAGE_VOLUME;
    }
  }

  lemma MadeClaimIsValid(g: Setting, c: Children, spec: KodeSpec, cfg: Config)
    requires Made(g, c, spec, cfg)
    ensures ClaimValid(g, c, spec) <==> (ManagesClaim(spec) ==> !StorageIsEmpty(spec.storage))
  {
    hide StorageIsEmpty, DesiredSet, DesiredData, SecretName, ClaimName;
  }

  /** The five views of a fresh child agree, but for storage that is given and empty: it asks for a claim
      that is validated and waited for, and never made. Otherwise readiness is left to replicas, the
      claim's binding and the pods. */
  lemma MadeAgrees(g: Setting, c: Children, spec: KodeSpec, cfg: Config)
    requires Made(g, c, spec, cfg) && OwnSecret(spec, cfg)
    ensures ValidNow(g, c, spec, cfg) <==> (ManagesClaim(spec) ==> !StorageIsEmpty(spec.storage))
    ensures ReadyNow(g, c, spec, cfg) <==>
              && c.stateful.value.readyReplicas == 1
              && (ManagesClaim(spec) ==> !StorageIsEmpty(spec.storage) && ClaimAt(c, ClaimName(g.name, spec)).value.bound)
              && PodsReady(c.pods, cfg.labels)
  {
    MadeSetIsValid(g, c, spec, cfg);
    MadeClaimIsValid(g, c, spec, cfg);
    hide StorageIsEmpty, DesiredSet, SecretName, ClaimName, PodsReady, SetValid, ClaimValid;
    assert ServiceHasPort(c.service.value, cfg) by { assert c.service.value.ports[0].port == cfg.template.spec.port; }
  }

  /** So from nothing, with no failing call and whatever the environment does meanwhile: detection asks for
      everything, the apply ends as FreshOutcome says, and after a successful one validation passes exactly
      when storage is not given empty. */
  lemma FreshChildrenAgree(g: Setting, y: Sys, spec: KodeSpec, cfg: Config)
    requires Friendly(g) && y.w.children.terminating == {} && OwnSecret(spec, cfg) && NoneYet(g, y.w.children, spec)
    ensures DetectChanges(g, y, spec, cfg).out == Ok(AllParts(spec))
    ensures var a := ApplyConfiguration(g, DetectChanges(g, y, spec, cfg).y, spec, cfg, AllParts(spec));
            && a.out == FreshOutcome(spec, cfg)
            && (Idle(y.w) ==> a.y.w.kode == y.w.kode && a.y.w.ep == y.w.ep) && a.y.log == y.log && a.y.w.children.terminating == {}
            && (a.out.Ok? ==>
                  && Made(g, a.y.w.children, spec, cfg)
                  && Drift(a.y.w, ValidateConfiguration(g, a.y, spec, cfg).y.w)
                  && ValidateConfiguration(g, a.y, spec, cfg).y.log == a.y.log
                  && (ValidateConfiguration(g, a.y, spec, cfg).err.None? <==> (ManagesClaim(spec) ==> !StorageIsEmpty(spec.storage))))
  {
    OwnConfig(spec, cfg);
    DetectNone(g, y, spec, cfg);
    var d := DetectChanges(g, y, spec, cfg);
    DriftKeepsParts(g, y.w, d.y.w, spec, cfg);
    assert NoneYet(g, d.y.w.children, spec) && d.y.w.children.terminating == {} && (Idle(y.w) ==> d.y.w.kode == y.w.kode && d.y.w.ep == y.w.ep) by {
      hide NotYet, DetectChanges, SameSet, SameClaims;
    }
    hide *;
    ApplyFresh(g, d.y, spec, cfg);
    var a := ApplyConfiguration(g, d.y, spec, cfg, AllParts(spec));
    if a.out.Ok? {
      ValidateMeaning(g, a.y, spec, cfg);
      MadeAgrees(g, a.y.w.children, spec, cfg);
    }
  }

  // ---- where they do not agree ----

  /** Labels are given to a secret when it is made, and never again: once the template's name has changed,
      no apply makes the secret pass validation. */
  lemma RenamedTemplateNeverValidates(g: Setting, y: Sys, spec: KodeSpec, cfg: Config, changes: set<Part>)
    requires Alone(g) && OwnSecret(spec, cfg)
    requires SecretAt(y.w.children, SecretName(g.name, spec)).Some?
    requires !Carries(SecretAt(y.w.children, SecretName(g.name, spec)).value.labels, cfg.labels)
    ensures var a := ApplyConfiguration(g, y, spec, cfg, changes);
            ValidateConfiguration(g, a.y, spec, cfg).err.Some?
  {
    LabelsStay(g, y, spec, cfg, changes, ORDER);
    var a := ApplyConfiguration(g, y, spec, cfg, changes);
    EnterAlone(g, a.y);
    hide Alone, Enter, Carries, ApplyParts, SecretName, SecretHasFields, ValidateService, ValidateSet, ValidatePVC;
  }

  lemma {:induction false} LabelsStay(g: Setting, y: Sys, spec: KodeSpec, cfg: Config, changes: set<Part>,
                                      order: seq<Part>)
    requires Alone(g) && OwnSecret(spec, cfg)
    requires SecretAt(y.w.children, SecretName(g.name, spec)).Some?
    ensures var n := SecretName(g.name, spec);
            var r := ApplyParts(g, y, spec, cfg, changes, order);
            SecretAt(r.y.w.children, n).Some? && SecretAt(r.y.w.children, n).value.labels == SecretAt(y.w.children, n).value.labels
    decreases |order|
  {
    hide Alone, OwnSecret, EnsurePart, SecretName;
    if order != [] {
      if order[0] in changes {
        EnsureKeepsLabels(g, y, spec, cfg, order[0]);
        EnsureFixes(g, y, spec, cfg, order[0]);
        var r := EnsurePart(g, y, spec, cfg, order[0]);
        if r.out.Ok? {
          LabelsStay(g, r.y, spec, cfg, changes, order[1..]);
        }
      } else {
        LabelsStay(g, y, spec, cfg, changes, order[1..]);
      }
    }
  }

  lemma EnsureKeepsLabels(g: Setting, y: Sys, spec: KodeSpec, cfg: Config, p: Part)
    requires Alone(g) && SecretAt(y.w.children, SecretName(g.name, spec)).Some?
    ensures var n := SecretName(g.name, spec);
            var r := EnsurePart(g, y, spec, cfg, p);
            SecretAt(r.y.w.children, n).Some? && SecretAt(r.y.w.children, n).value.labels == SecretAt(y.w.children, n).value.labels
  {
    EnterAlone(g, y);
    hide Alone, Enter, SecretName, ClaimName, DesiredSet, StorageIsEmpty;
  }

  /** With a secret of the user's the fixpoint is lost: the credentials are loaded after detection, so the
      secret is reported at every detection if and only if it does not hold exactly the credentials of the
      spec, and no apply writes it. */
  lemma ExistingSecretNeverSettles(g: Setting, y: Sys, spec: KodeSpec, cfg: Config, changes: set<Part>)
    requires Alone(g) && cfg.spec == spec && cfg.credentials.existingSecret.Some? && ExistingSecret(spec) == cfg.credentials.existingSecret
    ensures var a := ApplyConfiguration(g, y, spec, cfg, changes);
            && a.y.w.children.secrets == y.w.children.secrets
            && (Stale(g, a.y.w.children, spec, cfg, SecretPart) <==>
                  ExistingSecret(spec).value !in y.w.children.secrets
                  || y.w.children.secrets[ExistingSecret(spec).value].data != DesiredData(cfg.credentials))
  {
    SecretsStay(g, y, spec, cfg, changes, ORDER);
    hide Alone, ApplyParts, DesiredData;
  }

  lemma {:induction false} SecretsStay(g: Setting, y: Sys, spec: KodeSpec, cfg: Config, changes: set<Part>,
                                       order: seq<Part>)
    requires Alone(g) && cfg.credentials.existingSecret.Some?
    ensures ApplyParts(g, y, spec, cfg, changes, order).y.w.children.secrets == y.w.children.secrets
    decreases |order|
  {
    hide Alone, EnsurePart;
    if order != [] {
      if order[0] in changes {
        EnsureLeavesSecrets(g, y, spec, cfg, order[0]);
        var r := EnsurePart(g, y, spec, cfg, order[0]);
        if r.out.Ok? {
          SecretsStay(g, r.y, spec, r.out.value, changes, order[1..]);
        }
      } else {
        SecretsStay(g, y, spec, cfg, changes, order[1..]);
      }
    }
  }

  lemma EnsureLeavesSecrets(g: Setting, y: Sys, spec: KodeSpec, cfg: Config, p: Part)
    requires Alone(g) && cfg.credentials.existingSecret.Some?
    ensures var r := EnsurePart(g, y, spec, cfg, p);
            r.y.w.children.secrets == y.w.children.secrets && (r.out.Ok? ==> r.out.value.credentials.existingSecret.Some?)
  {
    EnterAlone(g, y);
    hide Alone, Enter, SecretName, ClaimName, DesiredSet, StorageIsEmpty;
  }
}

/** What the EntryPoint controller's stale copies do to a deletion. While its calls get through they only delay
    it, and may even undo a missed cleanup; with one refused call in every round they block it for ever. */
module StaleWrites {
  import opened KodeTypes
  import opened Cluster
  import opened Handlers
  import opened Deletion
  import opened DeletionEnds
  import opened WritesLeft
  import I = Invariants
  import D = Desired
  import R = Resources
  import T = Templates

  // ---- deletion ends all the same ----

  lemma DyingIsGood(g: Setting, w: World)
    requires I.StatusInv(w) && Dying(g, w)
    ensures Good(g, w.kode.value.spec, w)
  {
    hide I.HasAll, Exists, R.RequiredAbsent, R.ShouldDelete;
    var k := w.kode.value;
    forall key | key in R.RequiredAbsent(g, k.spec)
      ensures Going(w.children, key) || (k.status.deletionCycle == 0 && R.ShouldDelete(k.spec, key))
    {
      assert !Held(g, w, key);
    }
  }

  /** Nothing holds the Kode, all but the user act, and the EntryPoint controller's calls get through or it has
      nothing to do: then the deletion ends, within seven rounds and seven more for each write the EntryPoint
      controller has left, of which there are at most four, and none if it is idle. */
  lemma ServedDeletionEnds(g: Setting, y: Sys)
    requires Attended(g) && Fair(g, y.w) && I.StatusInv(y.w) && Dying(g, y.w)
    requires SweepsAll(g, R.RequiredAbsent(g, y.w.kode.value.spec))
    ensures Rounds(g, y, 7 * (Left(g, y.w) + 1)).w.kode.None?
    ensures Left(g, y.w) <= 4 && (Idle(y.w) ==> Left(g, y.w) == 0)
  {
    hide Attended, Fair, Good, SweepsAll, Rounds, I.StatusInv, Left, Idle, Held;
    DyingIsGood(g, y.w);
    AtMostFour(g, y.w);
    ServedEnds(g, y.w.kode.value.spec, y, Left(g, y.w));
  }

  // ---- an idle EntryPoint controller: the exact condition ----

  function Alternating(n: nat): seq<Event> { if n == 0 then [] else [ReconcileNow, Pause] + Alternating(n - 1) }

  lemma {:induction false} RoundsAreRun(g: Setting, y: Sys, n: nat)
    ensures Rounds(g, y, n) == Run(g, y, Alternating(n))
    decreases n
  {
    hide Reconcile, Enter;
    if n > 0 {
      var es := Alternating(n);
      assert es[0] == ReconcileNow && es[1..] == [Pause] + Alternating(n - 1) && es[1..][0] == Pause && es[1..][1..] == Alternating(n - 1);
      RoundsAreRun(g, Round(g, y), n - 1);
      assert Run(g, y, es) == Run(g, Reconcile(g, y).y, es[1..]);
      assert Run(g, Reconcile(g, y).y, es[1..]) == Run(g, Round(g, y), Alternating(n - 1));
    }
  }

  lemma NoEdits(g: Setting, key: Key, kept: bool)
    requires Attended(g)
    ensures EditsKeep(g, key, kept)
  {
    forall n: nat, i | 0 <= i < |g.script(n).acts| ensures !g.script(n).acts[i].Edit? {
      assert UserAway(g.script(n).acts[i]);
    }
  }

  lemma HeldIsStuck(g: Setting, w: World, key: Key)
    requires I.StatusInv(w) && Deleted(w) && Held(g, w, key)
    ensures var kept := !R.ShouldDelete(w.kode.value.spec, key); (kept || Idle(w)) ==> Stuck(g, key, kept, w)
  {
    hide I.HasAll, Exists, R.RequiredAbsent, R.ShouldDelete;
  }

  /** A child that the operator spares, or any held child while the EntryPoint controller is idle, keeps the
      Kode there for any number of rounds. */
  lemma HeldBlocks(g: Setting, y: Sys, key: Key, n: nat)
    requires Attended(g) && I.StatusInv(y.w) && Deleted(y.w) && Held(g, y.w, key)
    requires Idle(y.w) || !R.ShouldDelete(y.w.kode.value.spec, key)
    ensures Rounds(g, y, n).w.kode.Some?
  {
    hide Attended, Idle, Held, I.StatusInv, Rounds, Run, R.ShouldDelete, StuckCopy, EditsKeep, Exists;
    var kept := !R.ShouldDelete(y.w.kode.value.spec, key);
    HeldIsStuck(g, y.w, key);
    NoEdits(g, key, kept);
    StuckForever(g, key, kept, y, Alternating(n));
    RoundsAreRun(g, y, n);
  }

  /** The exact condition of DeletionEndsExactly also with the EntryPoint controller about, its calls failing or
      not, if it is idle when the deletion is looked at first. */
  lemma IdleDeletionEndsExactly(g: Setting, y: Sys)
    requires Attended(g) && Idle(y.w) && I.StatusInv(y.w) && Deleted(y.w)
    requires SweepsAll(g, R.RequiredAbsent(g, y.w.kode.value.spec))
    ensures var k := y.w.kode.value;
            Rounds(g, y, 7).w.kode.None? <==>
              forall key :: key in R.RequiredAbsent(g, k.spec) && Exists(y.w.children, key) ==>
                key in y.w.children.terminating || (k.status.deletionCycle == 0 && R.ShouldDelete(k.spec, key))
    ensures Rounds(g, y, 7).w.kode.Some? ==> forall n: nat :: Rounds(g, y, n).w.kode.Some?
  {
    hide Attended, I.StatusInv, SweepsAll, Rounds, Left, R.RequiredAbsent, R.ShouldDelete, Exists;
    if key :| Held(g, y.w, key) {
      forall n: nat ensures Rounds(g, y, n).w.kode.Some? {
        HeldBlocks(g, y, key, n);
      }
    } else {
      ServedDeletionEnds(g, y);
      var k := y.w.kode.value;
      forall key | key in R.RequiredAbsent(g, k.spec) && Exists(y.w.children, key)
        ensures key in y.w.children.terminating || (k.status.deletionCycle == 0 && R.ShouldDelete(k.spec, key))
      {
        assert !Held(g, y.w, key);
      }
    }
  }

  // ---- a stale write undoes a missed cleanup ----

  /** The EntryPoint controller's next call is a write of its copy of the status. */
  predicate Writing(w: World) { w.ep.Some? && (w.ep.value.pc == Report || w.ep.value.pc == Publish || w.ep.value.pc == Fail) }

  /** After a stale write nothing missed holds the Kode any more, only what the operator spares. */
  lemma StaleWriteFrees(g: Setting, w: World, now: nat)
    requires I.StatusInv(w) && Deleted(w) && Writing(w)
    ensures var k := w.kode.value;
            var v := Act1(g, w, EpStep(true), now);
            && I.StatusInv(v) && Deleted(v) && v.kode.value.spec == k.spec && v.kode.value.status.deletionCycle == 0
            && v.children == w.children
            && forall key :: Held(g, v, key) <==>
                 key in R.RequiredAbsent(g, k.spec) && Standing(w.children, key) && !R.ShouldDelete(k.spec, key)
  {
    hide Act1, I.StatusInv, R.RequiredAbsent, R.ShouldDelete, Exists;
    StaleWrite(g, w, now);
    I.ActKeepsStatusInv(g, w, EpStep(true), now);
  }

  /** A stale write that gets through turns the deletion cycle back to 0, so that the cleanup is still to come.
      If the EntryPoint controller's calls get through, the deletion then ends if and only if the operator spares
      no required child that stands, whatever an earlier cleanup has missed. */
  lemma StaleWriteReopens(g: Setting, y: Sys, now: nat)
    requires I.StatusInv(y.w) && Deleted(y.w) && Writing(y.w)
    ensures var k := y.w.kode.value;
            var v := Act1(g, y.w, EpStep(true), now);
            && Deleted(v) && v.kode.value.status.deletionCycle == 0 && v.children == y.w.children
            && (Attended(g) && EntryPointUp(g) && SweepsAll(g, R.RequiredAbsent(g, k.spec)) ==>
                  (Rounds(g, y.(w := v), 35).w.kode.None? <==>
                     forall key :: key in R.RequiredAbsent(g, k.spec) && Standing(y.w.children, key) ==> R.ShouldDelete(k.spec, key)))
  {
    hide Act1, I.StatusInv, SweepsAll, Rounds, Left, R.RequiredAbsent, R.ShouldDelete, Standing, Held, Attended, EntryPointUp, Fair,
      Dying, Writing;
    var k := y.w.kode.value;
    var v := Act1(g, y.w, EpStep(true), now);
    var x := y.(w := v);
    StaleWriteFrees(g, y.w, now);
    if Attended(g) && EntryPointUp(g) && SweepsAll(g, R.RequiredAbsent(g, k.spec)) {
      if key :| Held(g, v, key) {
        HeldBlocks(g, x, key, 35);
      } else {
        NothingHeld(g, v);
        GoneIn35(g, x);
        forall key | key in R.RequiredAbsent(g, k.spec) && Standing(y.w.children, key) ensures R.ShouldDelete(k.spec, key) {
          assert !Held(g, v, key);
        }
      }
    }
  }

  lemma NothingHeld(g: Setting, w: World)
    requires Deleted(w) && forall key :: !Held(g, w, key)
    ensures Dying(g, w)
  {
    hide Held;
  }

  lemma GoneIn35(g: Setting, y: Sys)
    requires Attended(g) && EntryPointUp(g) && I.StatusInv(y.w) && Dying(g, y.w)
    requires SweepsAll(g, R.RequiredAbsent(g, y.w.kode.value.spec))
    ensures Rounds(g, y, 35).w.kode.None?
  {
    hide Attended, EntryPointUp, I.StatusInv, SweepsAll, Rounds, Left, Held, Idle;
    ServedDeletionEnds(g, y);
    var n := 7 * (Left(g, y.w) + 1);
    RoundsSplit(g, y, n, 35 - n);
    GoneForGood(g, Rounds(g, y, n), 35 - n);
  }

  lemma StaleWrite(g: Setting, w: World, now: nat)
    requires I.StatusInv(w) && Deleted(w) && Writing(w)
    ensures var v := Act1(g, w, EpStep(true), now);
            && v.children == w.children && v.kode == Some(w.kode.value.(status := w.ep.value.kode.status))
            && v.kode.value.status.deletionCycle == 0
  {
    hide I.HasAll, EpPublishing;
  }

  // ---- refused writes block the deletion ----

  /** What the EntryPoint controller does before each reconcile: its write after the route gets through and makes
      the Kode Active again, its write of the URL is refused, and it starts over with a new copy. */
  const REFUSED: seq<Act> := [EpStep(true), EpStep(false), EpRead, EpStep(true), EpStep(true)]

  /** It takes a copy of an Active Kode and gets as far as its first write, when the user deletes the Kode. */
  const CAUGHT: seq<Act> := [EpRead, EpStep(true), EpStep(true), DeleteKode]

  /** There is a URL to publish for this Kode, and no security policy to write. */
  predicate Unpublished(g: Setting, k: Kode) {
    var o := EpLookup(g, EpRun(Lookup, k, None, false), true, 0);
    o.Some? && o.value.pc == EnsureRoute && !o.value.policy
  }

  /** A Kode being deleted, and a copy from before its deletion about to be written. */
  predicate Caught(g: Setting, w: World) {
    && w.kode.Some? && w.kode.value.deleting && w.kode.value.finalizer
    && w.ep.Some? && w.ep.value.pc == Report
    && var s := w.ep.value.kode.status;
    && s.phase == Active && s.observedGeneration != w.kode.value.generation && Unpublished(g, w.kode.value.(status := s))
  }

  lemma LooksUp(g: Setting, k: Kode, now: nat)
    requires Unpublished(g, k)
    ensures var o := EpLookup(g, EpRun(Lookup, k, None, false), true, now);
            o.Some? && o.value.pc == EnsureRoute && !o.value.policy && o.value.kode == k
  {
    hide FindEntryPoint, GenerateUrl;
  }

  lemma SameUnpublished(g: Setting, k: Kode, m: Kode)
    requires Unpublished(g, k) && m.spec == k.spec && m.status.kodeUrl == k.status.kodeUrl && m.status.kodePort == k.status.kodePort
    ensures Unpublished(g, m)
  {
    hide FindEntryPoint, GenerateUrl;
  }

  lemma Acts(g: Setting, w: World, a: Act, rest: seq<Act>, now: nat)
    ensures Others(g, w, [a] + rest, now) == Others(g, Act1(g, w, a, now), rest, now)
  {
    assert ([a] + rest)[1..] == rest;
    hide Act1;
  }

  /** A new copy is brought to its first write. */
  lemma GetsToReport(g: Setting, w: World, now: nat)
    requires w.kode.Some? && w.kode.value.status.phase == Active && w.ep.None? && Unpublished(g, w.kode.value)
    ensures var v := Act1(g, Act1(g, Act1(g, w, EpRead, now), EpStep(true), now), EpStep(true), now);
            && v == w.(ep := v.ep, route := v.route) && v.ep.Some? && v.ep.value.pc == Report
            && v.ep.value.kode == w.kode.value.(status := w.kode.value.status.(conditions := v.ep.value.kode.status.conditions))
  {
    LooksUp(g, w.kode.value, now);
    AllCopiesAre(now);
    hide EpLookup, EpEnsured, EpFailing, EpPublishing;
  }

  lemma RefusedActs(g: Setting, w: World, now: nat)
    requires Caught(g, w)
    ensures var v := Others(g, w, REFUSED, now);
            && Caught(g, v) && v == w.(kode := v.kode, ep := v.ep, route := v.route)
            && v.kode.value == w.kode.value.(status := w.ep.value.kode.status)
  {
    var w1 := Act1(g, w, EpStep(true), now);
    var w2 := Act1(g, w1, EpStep(false), now);
    var w3 := Act1(g, w2, EpRead, now);
    var w4 := Act1(g, w3, EpStep(true), now);
    var v := Act1(g, w4, EpStep(true), now);
    assert w2 == w.(kode := Some(w.kode.value.(status := w.ep.value.kode.status)), ep := None) by {
      AllCopiesAre(now);
      hide EpPublishing, EpFailing, EpLookup, EpEnsured;
    }
    hide Act1, Unpublished;
    GetsToReport(g, w2, now);
    SameUnpublished(g, w2.kode.value, v.kode.value.(status := v.ep.value.kode.status));
    assert Others(g, w, REFUSED, now) == v by {
      assert REFUSED == [EpStep(true)] + [EpStep(false), EpRead, EpStep(true), EpStep(true)];
      Acts(g, w, EpStep(true), [EpStep(false), EpRead, EpStep(true), EpStep(true)], now);
      assert [EpStep(false), EpRead, EpStep(true), EpStep(true)] == [EpStep(false)] + [EpRead, EpStep(true), EpStep(true)];
      Acts(g, w1, EpStep(false), [EpRead, EpStep(true), EpStep(true)], now);
      ThreeActs(g, w2, EpRead, EpStep(true), EpStep(true), now);
    }
  }

  lemma ThreeActs(g: Setting, w: World, a: Act, b: Act, c: Act, now: nat)
    ensures Others(g, w, [a, b, c], now) == Act1(g, Act1(g, Act1(g, w, a, now), b, now), c, now)
  {
    hide Act1;
    assert [a, b, c] == [a] + [b, c] && [b, c] == [b] + [c] && [c] == [c] + [];
    Acts(g, w, a, [b, c], now);
    Acts(g, Act1(g, w, a, now), b, [c], now);
    Acts(g, Act1(g, Act1(g, w, a, now), b, now), c, [], now);
  }

  /** One reconcile, with these steps before its read and none after: it only catches up with the generation, and
      the next copy is already about to be written. */
  lemma CaughtRound(g: Setting, y: Sys)
    requires Caught(g, y.w) && g.script(y.t) == Tick(REFUSED, true)
    requires g.script(y.t + 1) == Tick([], true) && g.script(y.t + 2) == Tick([], true)
    ensures var r := Reconcile(g, y).y;
            && Caught(g, r.w) && r.t == y.t + 3 && r.w.children == y.w.children && r.w.owned == y.w.owned
  {
    hide REFUSED, Others, Unpublished, Enter, UpdateStatus, Up;
    EntersWith(g, y, REFUSED);
    var z := Enter(g, y);
    RefusedActs(g, y.w, y.t);
    var k := z.w.kode.value;
    var m := WithPhase(k, Deleting);
    SaveAtOnce(g, z, m.status);
    var u := UpdateStatus(g, z, m.status);
    SaveAtOnce(g, u.y, m.status.(observedGeneration := k.generation));
    var r := Reconcile(g, y).y;
    assert r == UpdateStatus(g, u.y, m.status.(observedGeneration := k.generation)).y;
    SameUnpublished(g, k.(status := z.w.ep.value.kode.status), r.w.kode.value.(status := r.w.ep.value.kode.status));
  }

  lemma EntersWith(g: Setting, y: Sys, acts: seq<Act>)
    requires g.script(y.t) == Tick(acts, true)
    ensures Enter(g, y) == Sys(Others(g, y.w, acts, y.t), y.t + 1, y.log) && Up(g, y)
  {
    hide Others;
  }

  lemma SaveAtOnce(g: Setting, y: Sys, s: Status)
    requires g.script(y.t) == Tick([], true) && y.w.kode.Some?
    ensures UpdateStatus(g, y, s) == Ack(Sys(y.w.(kode := Some(y.w.kode.value.(status := s))), y.t + 1, y.log + [s]), None)
  {
  }

  function Reconciling(n: nat): seq<Event> { if n == 0 then [] else [ReconcileNow] + Reconciling(n - 1) }

  ghost predicate Refusing(g: Setting, from: nat) {
    forall i: nat :: g.script(from + 3 * i) == Tick(REFUSED, true)
                     && g.script(from + 3 * i + 1) == Tick([], true) && g.script(from + 3 * i + 2) == Tick([], true)
  }

  lemma RefusingNext(g: Setting, from: nat)
    requires Refusing(g, from)
    ensures g.script(from) == Tick(REFUSED, true) && g.script(from + 1) == Tick([], true) && g.script(from + 2) == Tick([], true)
    ensures Refusing(g, from + 3)
  {
    hide REFUSED;
    assert from == from + 3 * 0;
    forall i: nat ensures g.script(from + 3 + 3 * i) == Tick(REFUSED, true)
                          && g.script(from + 3 + 3 * i + 1) == Tick([], true) && g.script(from + 3 + 3 * i + 2) == Tick([], true)
    {
      assert from + 3 + 3 * i == from + 3 * (i + 1);
    }
  }

  lemma {:induction false} CaughtForever(g: Setting, y: Sys, n: nat)
    requires Caught(g, y.w) && Refusing(g, y.t)
    ensures var w := Run(g, y, Reconciling(n)).w; Caught(g, w) && w.children == y.w.children
    decreases n
  {
    hide Caught, Refusing, Reconcile, REFUSED;
    if n > 0 {
      RefusingNext(g, y.t);
      CaughtRound(g, y);
      assert Reconciling(n)[0] == ReconcileNow && Reconciling(n)[1..] == Reconciling(n - 1);
      CaughtForever(g, Reconcile(g, y).y, n - 1);
    }
  }

  /** Where the bound is lost: a Kode deleted while the EntryPoint controller is about to write its copy of it. If
      before every reconcile its first write gets through and its second is refused, then no reconcile does more
      than catch up with the generation, no child is ever deleted, and the finalizer never comes off, although no
      call of the Kode controller fails. */
  lemma RefusedWritesBlock(g: Setting, y: Sys, n: nat)
    requires I.StatusInv(y.w) && y.w.kode.Some? && y.w.kode.value.status.phase == Active && y.w.ep.None?
    requires y.w.kode.value.finalizer && !y.w.kode.value.deleting && Unpublished(g, y.w.kode.value)
    requires g.script(y.t) == Tick(CAUGHT, true) && Refusing(g, y.t + 1)
    ensures var w := Run(g, y, [Pause] + Reconciling(n)).w;
            w.kode.Some? && w.kode.value.deleting && w.kode.value.finalizer && w.children == y.w.children
  {
    hide Refusing, Unpublished, REFUSED, I.StatusOk, CAUGHT, Others, Enter, Caught;
    EntersWith(g, y, CAUGHT);
    var z := Enter(g, y);
    ActiveIsCaught(g, y.w, y.t);
    CaughtIsThere(g, z.w);
    CaughtForever(g, z, n);
    var es := [Pause] + Reconciling(n);
    assert es[0] == Pause && es[1..] == Reconciling(n);
    CaughtIsThere(g, Run(g, z, Reconciling(n)).w);
  }

  lemma CaughtIsThere(g: Setting, w: World)
    requires Caught(g, w)
    ensures w.kode.Some? && w.kode.value.deleting && w.kode.value.finalizer
  {
    hide Unpublished;
  }

  lemma ActiveIsCaught(g: Setting, w: World, now: nat)
    requires w.kode.Some? && w.kode.value.status.phase == Active && w.ep.None?
    requires w.kode.value.finalizer && !w.kode.value.deleting && Unpublished(g, w.kode.value)
    requires w.kode.value.status.observedGeneration <= w.kode.value.generation
    ensures var v := Others(g, w, CAUGHT, now); Caught(g, v) && v.children == w.children
  {
    GetsToReport(g, w, now);
    var v := Act1(g, Act1(g, Act1(g, w, EpRead, now), EpStep(true), now), EpStep(true), now);
    var x := RequestDeletion(v);
    SameUnpublished(g, w.kode.value, x.kode.value.(status := x.ep.value.kode.status)) by { hide Unpublished, Act1; }
    assert Others(g, w, CAUGHT, now) == x by {
      assert Act1(g, v, DeleteKode, now) == x;
      hide Act1, Unpublished;
      assert CAUGHT == [EpRead] + [EpStep(true), EpStep(true), DeleteKode];
      Acts(g, w, EpRead, [EpStep(true), EpStep(true), DeleteKode], now);
      ThreeActs(g, Act1(g, w, EpRead, now), EpStep(true), EpStep(true), DeleteKode, now);
    }
    hide Act1, Others, Unpublished;
  }

  // ---- such a run ----

  const REF: Reference := Reference(T.CONTAINER, "t", Some("ns"))
  const TEMPLATE: TemplateSpec :=
    TemplateSpec(3000, CodeServer, "image", "", "UTC", 1000, 1000, "/config", "workspace", [], [], [], Some(Reference("EntryPoint", "e", Some("ns"))))
  const ENTRY: EntryPoint := EntryPoint(Subdomain, "example.com", Some(Http), false)

  function Script(n: nat): Tick {
    Tick(if n == 0 then CAUGHT else if n % 3 == 1 then REFUSED else [], true)
  }

  function TheSetting(): Setting {
    Setting("k", T.Store(map[("ns", "t") := TEMPLATE], map[], map["e" := ENTRY]), D.Lib((a, b) => a, n => "", a => a), false, 1, 1, Script)
  }

  function TheActive(): Sys {
    var cs := [Condition(Ready, True, ResourcesReady, 0),
              Condition(Available, True, ResourcesReady, 0), Condition(Progressing, False, Provisioned, 0)];
    var k := Kode(KodeSpec(REF, None, None, None, None, []), 1, false, true, Status(Active, 1, cs, None, None, None, 3000, None, 0, 0));
    Sys(World(Some(k), Children(map[], None, None, map[], [], {}), None, None, {}, None), 0, [])
  }

  lemma TheScript()
    ensures TheSetting().script(0) == Tick(CAUGHT, true) && Refusing(TheSetting(), 1)
  {
    hide REFUSED, CAUGHT;
  }

  lemma TheKodeIsUnpublished()
    ensures Unpublished(TheSetting(), TheActive().w.kode.value)
  {
    assert T.NamespaceOf(REF) == "ns";
    assert T.Visible(TheSetting().store, REF) == Ok(Template("t", TEMPLATE, Some(ENTRY)));
  }

  /** An Active Kode whose URL is not published yet, with a template whose entry point serves plain HTTP. */
  lemma RefusedWritesHappen(n: nat)
    ensures var g := TheSetting();
            var w := Run(g, TheActive(), [Pause] + Reconciling(n)).w;
            w.kode.Some? && w.kode.value.deleting && w.kode.value.finalizer
  {
    TheScript();
    TheKodeIsUnpublished();
    assert I.StatusInv(TheActive().w);
    hide Run, Unpublished, Refusing, CAUGHT, REFUSED, TheSetting, I.StatusInv, Reconciling;
    RefusedWritesBlock(TheSetting(), TheActive(), n);
  }
}

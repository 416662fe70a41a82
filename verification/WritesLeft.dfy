/** Deletion while the EntryPoint controller acts too. Its stale copies of the Kode may still be written, which
    turns phase and deletion cycle back; but when its own calls get through it has at most four writes left, and
    between two of them the deletion goes on as if it were not there. */
module WritesLeft {
  import opened KodeTypes
  import opened Cluster
  import opened Handlers
  import opened DeletionEnds
  import opened Deletion
  import Steps = DeletionSteps
  import C = Conditions
  import R = Resources

  // ---- everybody but the user ----

  /** No call of the Kode controller fails, and only the user does not act. */
  ghost predicate Attended(g: Setting) {
    forall n: nat :: g.script(n).ok && forall i :: 0 <= i < |g.script(n).acts| ==> UserAway(g.script(n).acts[i])
  }

  predicate UserAway(a: Act) { Environmental(a) || a.Collect? || Entrant(a) }

  /** The EntryPoint controller's calls get through. */
  ghost predicate EntryPointUp(g: Setting) {
    forall n: nat, i :: 0 <= i < |g.script(n).acts| && g.script(n).acts[i].EpStep? ==> g.script(n).acts[i].ok
  }

  /** They do, or it makes none. */
  ghost predicate Fair(g: Setting, w: World) { EntryPointUp(g) || Idle(w) }

  predicate FairAct(w: World, a: Act) { (a.EpStep? ==> a.ok) || Idle(w) }

  // ---- the same without the EntryPoint controller ----

  function Purge(acts: seq<Act>): seq<Act> {
    if acts == [] then [] else (if Entrant(acts[0]) then [] else [acts[0]]) + Purge(acts[1..])
  }

  function Purged(g: Setting): Setting {
    g.(script := (n: nat) => Tick(Purge(g.script(n).acts), g.script(n).ok))
  }

  lemma {:induction false} PurgeKeeps(acts: seq<Act>)
    ensures forall a :: a in Purge(acts) <==> a in acts && !Entrant(a)
  {
    if acts != [] {
      PurgeKeeps(acts[1..]);
      assert acts == [acts[0]] + acts[1..];
    }
  }

  lemma PurgedIsUnattended(g: Setting)
    requires Attended(g)
    ensures Unattended(Purged(g))
  {
    forall n: nat ensures Purged(g).script(n).ok
                          && forall i :: 0 <= i < |Purged(g).script(n).acts| ==>
                               Environmental(Purged(g).script(n).acts[i]) || Purged(g).script(n).acts[i].Collect?
    {
      PurgeKeeps(g.script(n).acts);
      forall i | 0 <= i < |Purge(g.script(n).acts)|
        ensures Environmental(Purge(g.script(n).acts)[i]) || Purge(g.script(n).acts)[i].Collect?
      {
        var a := Purge(g.script(n).acts)[i];
        assert a in g.script(n).acts && UserAway(a);
      }
    }
  }

  lemma PurgedSweeps(g: Setting, key: Key)
    requires Steps.Sweeps(g, key)
    ensures Steps.Sweeps(Purged(g), key)
  {
    forall n: nat ensures Vanish(key) in Purged(g).script(n).acts {
      PurgeKeeps(g.script(n).acts);
    }
  }

  /** The second world differs from the first in what only the EntryPoint controller looks at. */
  predicate Same(w: World, v: World) { v == w.(ep := v.ep, route := v.route) }

  predicate SameSys(y: Sys, z: Sys) { z == y.(w := z.w) && Same(y.w, z.w) }

  // ---- the writes the EntryPoint controller has left ----

  /** The writes of a reconcile that starts with this spec, URL and port, if its calls get through: none, one
      of an error, or one after the route and one of the URL. */
  function Writes(g: Setting, spec: KodeSpec, url: Option<Url>, port: int): nat {
    match FindEntryPoint(g, spec)
    case Bad(e) => if e == NotFound || e == NilPointer then 0 else 1
    case Ok(entry) =>
      if entry.gateway.None? then 0
      else match GenerateUrl(entry.routing, entry.baseDomain, g.name, entry.gateway.value)
        case Bad(_) => 1
        case Ok(u) => if url == Some(u) || port == 0 then 0 else 2
  }

  function UrlOf(g: Setting, spec: KodeSpec): Option<Url> {
    match FindEntryPoint(g, spec)
    case Bad(_) => None
    case Ok(entry) =>
      if entry.gateway.None? then None
      else match GenerateUrl(entry.routing, entry.baseDomain, g.name, entry.gateway.value)
        case Bad(_) => None
        case Ok(u) => Some(u)
  }

  /** Those of a reconcile yet to start; a published URL is not published again. */
  function Starting(g: Setting, k: Kode): nat {
    if k.status.phase == Active then Writes(g, k.spec, k.status.kodeUrl, k.status.kodePort) else 0
  }

  /** All that are left, including those of a reconcile that starts because a write has made the Kode Active. */
  function Left(g: Setting, w: World): nat {
    if w.kode.None? then 0
    else
      var k := w.kode.value;
      if w.ep.None? then Starting(g, k)
      else
        var run := w.ep.value;
        var s := run.kode.status;
        match run.pc
        case Fail => 1
        case Publish => 1 + Writes(g, k.spec, s.kodeUrl, s.kodePort)
        case Report => 2 + Writes(g, k.spec, run.url, s.kodePort)
        case EnsureRoute => 2 + Writes(g, k.spec, run.url, s.kodePort)
        case EnsurePolicy => 2 + Writes(g, k.spec, run.url, s.kodePort)
        case Lookup =>
          var n := Writes(g, run.kode.spec, s.kodeUrl, s.kodePort);
          if n == 0 then Starting(g, k)
          else if n == 1 then 1
          else 2 + Writes(g, k.spec, UrlOf(g, run.kode.spec), s.kodePort)
  }

  lemma AtMostFour(g: Setting, w: World)
    ensures Left(g, w) <= 4
    ensures Idle(w) ==> Left(g, w) == 0
  {
    hide FindEntryPoint, GenerateUrl, UrlOf;
  }

  // ---- what every step keeps ----

  ghost predicate AllGoing(g: Setting, spec: KodeSpec, c: Children) {
    forall key :: key in R.RequiredAbsent(g, spec) ==> Going(c, key)
  }

  /** Every required child is being deleted or is in the operator's delete list. */
  ghost predicate Free(g: Setting, spec: KodeSpec, c: Children) {
    forall key :: key in R.RequiredAbsent(g, spec) ==> Going(c, key) || R.ShouldDelete(spec, key)
  }

  predicate CopyOk(w: World) {
    w.ep.Some? ==>
      && w.ep.value.kode.status.deletionCycle == 0
      && w.ep.value.kode.status.phase == if w.ep.value.pc == Fail then Failed else Active
  }

  /** A Kode being deleted that nothing holds, whatever the EntryPoint controller has in flight. */
  ghost predicate Good(g: Setting, spec: KodeSpec, w: World) {
    && w.kode.Some? && CopyOk(w) && Free(g, spec, w.children)
    && var k := w.kode.value;
    && k.spec == spec && k.deleting && k.finalizer && k.status.deletionCycle >= 0
    && (k.status.phase == Active ==> k.status.deletionCycle == 0)
    && (k.status.deletionCycle != 0 ==> AllGoing(g, spec, w.children))
  }

  /** A step that keeps all this, lets no child come back, and leaves no more writes to the EntryPoint controller. */
  ghost predicate Moves(g: Setting, spec: KodeSpec, w: World, v: World) {
    && Good(g, spec, v)
    && (forall key :: Going(w.children, key) ==> Going(v.children, key))
    && (Idle(w) ==> Idle(v))
    && Left(g, v) <= Left(g, w)
  }

  lemma MovesOn(g: Setting, spec: KodeSpec, u: World, v: World, w: World)
    requires Moves(g, spec, u, v) && Moves(g, spec, v, w)
    ensures Moves(g, spec, u, w)
  {
    hide Good, Left, Idle, Going;
  }

  lemma StillGoing(g: Setting, spec: KodeSpec, w: World, v: World)
    requires Moves(g, spec, w, v) && AllGoing(g, spec, w.children)
    ensures AllGoing(g, spec, v.children)
  {
    hide Good, Left, Idle, Going, R.RequiredAbsent;
  }

  lemma StillFair(g: Setting, spec: KodeSpec, w: World, v: World)
    requires Moves(g, spec, w, v) && Fair(g, w)
    ensures Fair(g, v)
  {
    hide Good, Left, Idle, EntryPointUp;
  }

  // ---- the steps of the others ----

  lemma LookupIs(g: Setting, run: EpRun, now: nat)
    ensures var n := Writes(g, run.kode.spec, run.kode.status.kodeUrl, run.kode.status.kodePort);
            var o := EpLookup(g, run, true, now);
            && (n == 0 ==> o.None?)
            && (n == 1 ==> o.Some? && exists e :: o.value == EpFailing(run, e, now))
            && (n == 2 ==> o.Some? && o.value == run.(pc := EnsureRoute, url := UrlOf(g, run.kode.spec), policy := o.value.policy))
            && n <= 2
    ensures Writes(g, run.kode.spec, run.kode.status.kodeUrl, run.kode.status.kodePort) == 2 ==>
              Writes(g, run.kode.spec, UrlOf(g, run.kode.spec), run.kode.status.kodePort) == 0
  {
    hide FindEntryPoint, GenerateUrl, EpFailing;
  }

  /** What the EntryPoint controller's local work does to its copy. */
  lemma CopiesAre(run: EpRun, e: Err, now: nat)
    ensures var f, r, p := EpFailing(run, e, now), EpEnsured(run, now), EpPublishing(run, now);
            && f.pc == Fail && f.kode.status.phase == Failed && f.kode.status.deletionCycle == run.kode.status.deletionCycle
            && r == run.(pc := Report, kode := run.kode.(status := run.kode.status.(conditions := r.kode.status.conditions)))
            && p == run.(pc := Publish, kode := run.kode.(status := run.kode.status.(kodeUrl := run.url, conditions := p.kode.status.conditions)))
  {
    hide C.Set;
  }

  lemma AllCopiesAre(now: nat)
    ensures forall run, e {:trigger EpFailing(run, e, now)} ::
              var f := EpFailing(run, e, now);
              f.pc == Fail && f.kode.status.phase == Failed && f.kode.status.deletionCycle == run.kode.status.deletionCycle
    ensures forall run {:trigger EpEnsured(run, now)} ::
              var r := EpEnsured(run, now);
              r == run.(pc := Report, kode := run.kode.(status := run.kode.status.(conditions := r.kode.status.conditions)))
    ensures forall run {:trigger EpPublishing(run, now)} ::
              var p := EpPublishing(run, now);
              p == run.(pc := Publish, kode := run.kode.(status := run.kode.status.(kodeUrl := run.url, conditions := p.kode.status.conditions)))
  {
    forall run: EpRun, e: Err
      ensures var f := EpFailing(run, e, now);
              f.pc == Fail && f.kode.status.phase == Failed && f.kode.status.deletionCycle == run.kode.status.deletionCycle
    {
      CopiesAre(run, e, now);
    }
    forall run: EpRun
      ensures var r, p := EpEnsured(run, now), EpPublishing(run, now);
              && r == run.(pc := Report, kode := run.kode.(status := run.kode.status.(conditions := r.kode.status.conditions)))
              && p == run.(pc := Publish, kode := run.kode.(status := run.kode.status.(kodeUrl := run.url, conditions := p.kode.status.conditions)))
    {
      CopiesAre(run, Refused, now);
    }
  }

  /** What a step of the EntryPoint controller from `w` to `v` may do: a write of it is one less left; any other
      step changes only its own, and nothing while it is idle. */
  predicate EpGoes(g: Setting, w: World, v: World) {
    && v == w.(kode := v.kode, ep := v.ep, route := v.route)
    && w.kode.Some? && v.kode.Some? && v.kode.value == w.kode.value.(status := v.kode.value.status)
    && CopyOk(v)
    && (v.kode.value.status == w.kode.value.status || v.kode.value.status.deletionCycle == 0)
    && (Idle(w) ==> v == w)
    && Left(g, v) <= Left(g, w) && (Left(g, v) == Left(g, w) ==> Same(w, v))
  }

  lemma EpStarts(g: Setting, w: World)
    requires w.kode.Some? && CopyOk(w)
    requires w.kode.value.status.phase == Active ==> w.kode.value.status.deletionCycle == 0
    ensures EpGoes(g, w, EpStart(w))
  {
    hide UrlOf, Writes;
    LookupIs(g, EpRun(Lookup, w.kode.value, None, false), 0);
  }

  lemma EpLooksUp(g: Setting, w: World, now: nat)
    requires w.kode.Some? && CopyOk(w) && w.ep.Some? && w.ep.value.pc == Lookup
    ensures EpGoes(g, w, EpAdvance(g, w, true, now))
  {
    hide UrlOf, Writes, EpFailing, EpLookup;
    AllCopiesAre(now);
    LookupIs(g, w.ep.value, now);
  }

  lemma EpGoesOn(g: Setting, w: World, now: nat)
    requires w.kode.Some? && CopyOk(w) && w.ep.Some? && w.ep.value.pc != Lookup
    ensures EpGoes(g, w, EpAdvance(g, w, true, now))
  {
    hide UrlOf, Writes, EpFailing, EpEnsured, EpPublishing, EpLookup;
    AllCopiesAre(now);
  }

  lemma EpMoves(g: Setting, w: World, a: Act, now: nat)
    requires w.kode.Some? && CopyOk(w) && Entrant(a) && FairAct(w, a)
    requires w.kode.value.status.phase == Active ==> w.kode.value.status.deletionCycle == 0
    ensures EpGoes(g, w, Act1(g, w, a, now))
  {
    hide EpGoes;
    if a.EpRead? {
      EpStarts(g, w);
    } else if w.ep.None? {
      assert EpAdvance(g, w, a.ok, now) == w;
      EpRests(g, w);
    } else if w.ep.value.pc == Lookup {
      EpLooksUp(g, w, now);
    } else {
      EpGoesOn(g, w, now);
    }
    hide EpAdvance, EpStart;
  }

  lemma EpRests(g: Setting, w: World)
    requires w.kode.Some? && CopyOk(w)
    ensures EpGoes(g, w, w)
  {
    hide Left;
  }

  lemma OtherMoves(g: Setting, w: World, v: World, a: Act, now: nat)
    requires UserAway(a) && !Entrant(a) && w.kode.Some?
    ensures var x := Act1(g, w, a, now); x == w.(children := x.children)
    ensures Same(w, v) ==> Same(Act1(g, w, a, now), Act1(Purged(g), v, a, now))
  {
  }

  lemma ActKeepsGoing(g: Setting, w: World, a: Act, now: nat)
    ensures forall key :: Going(w.children, key) ==> Going(Act1(g, w, a, now).children, key)
  {
    assert Others(g, w, [a], now) == Act1(g, w, a, now) by {
      assert [a][1..] == [];
      hide Act1;
    }
    hide Act1, Going, Others;
    forall key | Going(w.children, key) ensures Going(Act1(g, w, a, now).children, key) {
      OthersKeepGoing(g, w, [a], now, key);
    }
  }

  lemma GoodAfter(g: Setting, spec: KodeSpec, w: World, v: World)
    requires Good(g, spec, w) && CopyOk(v)
    requires forall key :: Going(w.children, key) ==> Going(v.children, key)
    requires v.kode.Some? && v.kode.value == w.kode.value.(status := v.kode.value.status)
    requires v.kode.value.status == w.kode.value.status || v.kode.value.status.deletionCycle == 0
    ensures Good(g, spec, v)
  {
    hide Going, R.RequiredAbsent, R.ShouldDelete;
  }

  lemma ActMoves(g: Setting, spec: KodeSpec, w: World, a: Act, now: nat)
    requires Good(g, spec, w) && UserAway(a) && FairAct(w, a)
    ensures Moves(g, spec, w, Act1(g, w, a, now))
  {
    var v := Act1(g, w, a, now);
    hide Act1, Going, Free, AllGoing, Left, UserAway, Entrant;
    ActKeepsGoing(g, w, a, now);
    if Entrant(a) {
      EpMoves(g, w, a, now);
    } else {
      OtherMoves(g, w, w, a, now);
      assert Left(g, v) == Left(g, w) by { SameLeft(g, w, v); }
    }
    GoodAfter(g, spec, w, v);
  }

  lemma SameLeft(g: Setting, w: World, v: World)
    requires v == w.(children := v.children)
    ensures Left(g, v) == Left(g, w)
  {
    hide Writes, UrlOf;
  }

  predicate ActsOk(w: World, acts: seq<Act>) {
    forall i :: 0 <= i < |acts| ==> UserAway(acts[i]) && FairAct(w, acts[i])
  }

  lemma {:induction false} OthersMove(g: Setting, spec: KodeSpec, w: World, v: World, acts: seq<Act>, now: nat)
    requires Good(g, spec, w) && ActsOk(w, acts)
    ensures var x := Others(g, w, acts, now);
            && Moves(g, spec, w, x)
            && (Same(w, v) && Left(g, x) == Left(g, w) ==> Same(x, Others(Purged(g), v, Purge(acts), now)))
    decreases |acts|
  {
    hide Act1, Good, UserAway, Entrant, Left, Idle, Going, Purged;
    if acts != [] {
      var w1 := Act1(g, w, acts[0], now);
      ActMoves(g, spec, w, acts[0], now);
      assert ActsOk(w1, acts[1..]);
      if Entrant(acts[0]) {
        GoodHas(g, spec, w);
        EpMoves(g, w, acts[0], now);
        OthersMove(g, spec, w1, v, acts[1..], now);
        assert Purge(acts) == Purge(acts[1..]);
      } else {
        GoodHas(g, spec, w);
        OtherMoves(g, w, v, acts[0], now);
        var v1 := Act1(Purged(g), v, acts[0], now);
        OthersMove(g, spec, w1, v1, acts[1..], now);
        assert Purge(acts) == [acts[0]] + Purge(acts[1..]);
        assert Purge(acts)[0] == acts[0] && Purge(acts)[1..] == Purge(acts[1..]);
      }
      MovesOn(g, spec, w, w1, Others(g, w1, acts[1..], now));
    } else {
      NoMove(g, spec, w);
    }
  }

  lemma NoMove(g: Setting, spec: KodeSpec, w: World)
    requires Good(g, spec, w)
    ensures Moves(g, spec, w, w)
  {
    hide Good, Left;
  }

  lemma GoodHas(g: Setting, spec: KodeSpec, w: World)
    requires Good(g, spec, w)
    ensures w.kode.Some? && CopyOk(w) && (w.kode.value.status.phase == Active ==> w.kode.value.status.deletionCycle == 0)
    ensures w.kode.value.deleting && w.kode.value.finalizer && w.kode.value.spec == spec
  {
    hide Free, AllGoing;
  }

  // ---- the calls of the Kode controller, beside the same calls without the EntryPoint controller ----

  /** If no write is spent from `y` to `x`, then the purged run, at `z` where this one is at `y`, is at `u`
      where this one is at `x`. */
  ghost predicate Mirrors(g: Setting, y: Sys, x: Sys, z: Sys, u: Sys) {
    SameSys(y, z) && Left(g, x.w) == Left(g, y.w) ==> SameSys(x, u)
  }

  lemma EnterMoves(g: Setting, spec: KodeSpec, y: Sys, z: Sys)
    requires Attended(g) && Fair(g, y.w) && Good(g, spec, y.w)
    ensures Up(g, y) && Moves(g, spec, y.w, Enter(g, y).w)
    ensures Mirrors(g, y, Enter(g, y), z, Enter(Purged(g), z))
    ensures SameSys(y, z) ==> Up(Purged(g), z)
  {
    assert ActsOk(y.w, g.script(y.t).acts) by { hide UserAway, Idle; }
    hide Good, Left, Others, Act1, UserAway, Moves, Idle, ActsOk, Purge;
    OthersMove(g, spec, y.w, z.w, g.script(y.t).acts, y.t);
  }

  lemma SaveMoves(g: Setting, spec: KodeSpec, y: Sys, z: Sys, s: Status)
    requires Attended(g) && Fair(g, y.w) && Good(g, spec, y.w)
    requires s.phase == Deleting && s.deletionCycle >= 0 && (s.deletionCycle != 0 ==> AllGoing(g, spec, y.w.children))
    ensures var u := UpdateStatus(g, y, s);
            && u.err.None? && Moves(g, spec, y.w, u.y.w)
            && Mirrors(g, y, u.y, z, UpdateStatus(Purged(g), z, s).y)
            && (SameSys(y, z) ==> UpdateStatus(Purged(g), z, s).err.None?)
  {
    var e := Enter(g, y);
    EnterMoves(g, spec, y, z);
    if s.deletionCycle != 0 { StillGoing(g, spec, y.w, e.w); }
    GoodHas(g, spec, e.w);
    StoreMoves(g, spec, e.w, s);
    MovesOn(g, spec, y.w, e.w, StoreStatus(e.w, s));
    hide Enter, Good, Left, Idle, Going, Moves, AllGoing, Attended, Fair, Purged;
    assert Up(g, y);
    assert Left(g, StoreStatus(e.w, s)) <= Left(g, e.w) <= Left(g, y.w) by {
      MovesLeft(g, spec, y.w, e.w);
      MovesLeft(g, spec, e.w, StoreStatus(e.w, s));
    }
  }

  lemma MovesLeft(g: Setting, spec: KodeSpec, w: World, v: World)
    requires Moves(g, spec, w, v)
    ensures Left(g, v) <= Left(g, w) && Good(g, spec, v) && v.kode.Some?
  {
    hide Left, Idle, Going, Free, AllGoing;
  }

  lemma StoreMoves(g: Setting, spec: KodeSpec, w: World, s: Status)
    requires Good(g, spec, w)
    requires s.phase == Deleting && s.deletionCycle >= 0 && (s.deletionCycle != 0 ==> AllGoing(g, spec, w.children))
    ensures Moves(g, spec, w, StoreStatus(w, s))
  {
    hide Going, Writes, UrlOf, AllGoing, Free;
  }

  lemma {:induction false} AbsentMoves(g: Setting, spec: KodeSpec, y: Sys, z: Sys, keys: seq<Key>)
    requires Attended(g) && Fair(g, y.w) && Good(g, spec, y.w)
    ensures var r, s := R.CheckAbsent(g, y, keys), R.CheckAbsent(Purged(g), z, keys);
            && r.out.Ok? && Moves(g, spec, y.w, r.y.w) && Mirrors(g, y, r.y, z, s.y)
            && (SameSys(y, z) && Left(g, r.y.w) == Left(g, y.w) ==> s.out == r.out)
    decreases |keys|
  {
    hide Enter, Good, Left, Moves, Attended, Fair, Purged, Up;
    if keys == [] {
      NoMove(g, spec, y.w);
    } else {
      EnterMoves(g, spec, y, z);
      var e, f := Enter(g, y), Enter(Purged(g), z);
      MovesLeft(g, spec, y.w, e.w);
      if !Exists(e.w.children, keys[0]) {
        StillFair(g, spec, y.w, e.w);
        AbsentMoves(g, spec, e, f, keys[1..]);
        var r := R.CheckAbsent(g, e, keys[1..]);
        MovesLeft(g, spec, e.w, r.y.w);
        MovesOn(g, spec, y.w, e.w, r.y.w);
      }
      SameExists(e, f, keys[0]);
      hide Exists, SameSys;
    }
  }

  lemma SameExists(y: Sys, z: Sys, key: Key)
    ensures SameSys(y, z) ==> Exists(y.w.children, key) == Exists(z.w.children, key)
  {
  }

  lemma TerminateMoves(g: Setting, spec: KodeSpec, y: Sys, z: Sys, key: Key)
    requires Good(g, spec, y.w)
    ensures var x, u := PutChildren(y, Terminate(y.w.children, key), {}), PutChildren(z, Terminate(z.w.children, key), {});
            && Moves(g, spec, y.w, x.w) && Left(g, x.w) == Left(g, y.w) && (SameSys(y, z) ==> SameSys(x, u))
  {
    var x := PutChildren(y, Terminate(y.w.children, key), {});
    assert y.w.owned + {} == y.w.owned;
    assert x.w == y.w.(children := x.w.children);
    SameLeft(g, y.w, x.w);
    forall k | Going(y.w.children, k) ensures Going(x.w.children, k) {
      TerminateGoes(y.w.children, key, k);
    }
    GoodHas(g, spec, y.w);
    GoodAfter(g, spec, y.w, x.w);
    hide Good, Left, Going, Terminate;
  }

  lemma {:induction false} DeleteKeysMoves(g: Setting, spec: KodeSpec, y: Sys, z: Sys, keys: seq<Key>, initiated: bool)
    requires Attended(g) && Fair(g, y.w) && Good(g, spec, y.w)
    ensures var r, s := R.DeleteKeys(g, y, spec, keys, initiated), R.DeleteKeys(Purged(g), z, spec, keys, initiated);
            && r.out.Ok? && Moves(g, spec, y.w, r.y.w) && Mirrors(g, y, r.y, z, s.y)
            && (SameSys(y, z) && Left(g, r.y.w) == Left(g, y.w) ==> s.out == r.out)
    decreases |keys|
  {
    hide Enter, Good, Left, Moves, Attended, Fair, Purged, Up, R.ShouldDelete, PutChildren, Terminate, SameSys;
    if keys == [] {
      NoMove(g, spec, y.w);
    } else if R.ShouldDelete(spec, keys[0]) {
      EnterMoves(g, spec, y, z);
      var e, f := Enter(g, y), Enter(Purged(g), z);
      MovesLeft(g, spec, y.w, e.w);
      TerminateMoves(g, spec, e, f, keys[0]);
      var x, u := PutChildren(e, Terminate(e.w.children, keys[0]), {}), PutChildren(f, Terminate(f.w.children, keys[0]), {});
      MovesLeft(g, spec, e.w, x.w);
      MovesOn(g, spec, y.w, e.w, x.w);
      StillFair(g, spec, y.w, x.w);
      DeleteKeysMoves(g, spec, x, u, keys[1..], true);
      var r := R.DeleteKeys(g, x, spec, keys[1..], true);
      MovesLeft(g, spec, x.w, r.y.w);
      MovesOn(g, spec, y.w, x.w, r.y.w);
    } else {
      DeleteKeysMoves(g, spec, y, z, keys[1..], initiated);
    }
  }

  // ---- the deleting handler ----

  /** A copy the deleting handler works on: its deletion cycle is 0 unless all that is required absent is going. */
  ghost predicate GoodCopy(g: Setting, spec: KodeSpec, c: Children, k: Kode) {
    && k.spec == spec && k.deleting && k.finalizer && k.status.phase == Deleting && k.status.deletionCycle >= 0
    && (k.status.deletionCycle != 0 ==> AllGoing(g, spec, c))
  }

  lemma StillGoodCopy(g: Setting, spec: KodeSpec, w: World, v: World, k: Kode, m: Kode)
    requires Moves(g, spec, w, v) && GoodCopy(g, spec, w.children, k)
    requires m == k.(status := m.status) && m.status.phase == Deleting && m.status.deletionCycle == k.status.deletionCycle
    ensures GoodCopy(g, spec, v.children, m)
  {
    if k.status.deletionCycle != 0 { StillGoing(g, spec, w, v); }
    hide Moves, AllGoing;
  }

  /** After a cleanup all that is required absent is going. */
  lemma CleanedUp(g: Setting, spec: KodeSpec, y: Sys)
    requires Good(g, spec, y.w)
    ensures var c := R.Cleanup(g, y, spec); c.out.Ok? ==> AllGoing(g, spec, c.y.w.children)
  {
    var r := R.DeleteKeys(g, y, spec, R.CleanupKeys(g, spec), false);
    assert Free(g, spec, y.w.children) by { hide Free; }
    hide Good, Going, R.DeleteKeys, R.RequiredAbsent, R.CleanupKeys, R.ShouldDelete;
    if r.out.Ok? {
      forall key | key in R.RequiredAbsent(g, spec) ensures Going(r.y.w.children, key) {
        RequiredIsListed(g, spec, key);
        DeleteKeysGo(g, y, spec, R.CleanupKeys(g, spec), false, key);
      }
    }
  }

  lemma AwaitMoves(g: Setting, spec: KodeSpec, y: Sys, z: Sys, k: Kode)
    requires Attended(g) && Fair(g, y.w) && Good(g, spec, y.w) && GoodCopy(g, spec, y.w.children, k)
    ensures var o, p := AwaitChildren(g, y, k), AwaitChildren(Purged(g), z, k);
            && o.err.None? && o.phase == Deleting && Moves(g, spec, y.w, o.y.w) && Mirrors(g, y, o.y, z, p.y)
            && (SameSys(y, z) && Left(g, o.y.w) == Left(g, y.w) ==> p.err.None? && p.phase == Deleting)
  {
    hide Good, Left, Moves, Attended, Fair, Purged, R.DeleteKeys, R.CleanupKeys, UpdateStatus, HandleReconcileError, SameSys, AllGoing;
    var m := k.(status := k.status.(deletionCycle := k.status.deletionCycle + 1));
    if k.status.deletionCycle == 0 {
      PurgedKeys(g, spec);
      DeleteKeysMoves(g, spec, y, z, R.CleanupKeys(g, spec), false);
      CleanedUp(g, spec, y);
      var c, d := R.Cleanup(g, y, spec), R.Cleanup(Purged(g), z, spec);
      MovesLeft(g, spec, y.w, c.y.w);
      StillFair(g, spec, y.w, c.y.w);
      SaveMoves(g, spec, c.y, d.y, m.status);
      var u := UpdateStatus(g, c.y, m.status);
      MovesLeft(g, spec, c.y.w, u.y.w);
      MovesOn(g, spec, y.w, c.y.w, u.y.w);
    } else {
      SaveMoves(g, spec, y, z, m.status);
    }
  }

  lemma PurgedKeys(g: Setting, spec: KodeSpec)
    ensures R.CleanupKeys(Purged(g), spec) == R.CleanupKeys(g, spec) && R.RequiredAbsent(Purged(g), spec) == R.RequiredAbsent(g, spec)
  {
  }

  /** The end of a step that may let the Kode go: good or gone, and no more writes left than before. */
  ghost predicate Ends(g: Setting, spec: KodeSpec, w: World, v: World) {
    && (v.kode.Some? ==> Moves(g, spec, w, v))
    && Left(g, v) <= Left(g, w)
  }

  lemma ReleaseEnds(g: Setting, spec: KodeSpec, y: Sys, z: Sys)
    requires Attended(g) && Fair(g, y.w) && Good(g, spec, y.w)
    ensures var r, s := RemoveFinalizer(g, y, spec), RemoveFinalizer(Purged(g), z, spec);
            && r.err.None? && r.y.w.kode.None? && Ends(g, spec, y.w, r.y.w) && Mirrors(g, y, r.y, z, s.y)
            && (SameSys(y, z) && Left(g, r.y.w) == Left(g, y.w) ==> s.err.None?)
  {
    EnterMoves(g, spec, y, z);
    var e := Enter(g, y);
    MovesLeft(g, spec, y.w, e.w);
    GoodHas(g, spec, e.w);
    hide Enter, Good, Moves, Attended, Fair, Purged, Writes, UrlOf;
    assert Up(g, y);
  }

  lemma DeletingEnds(g: Setting, spec: KodeSpec, y: Sys, z: Sys, k: Kode)
    requires Attended(g) && Fair(g, y.w) && Good(g, spec, y.w) && GoodCopy(g, spec, y.w.children, k)
    ensures var o, p := HandleDeleting(g, y, k), HandleDeleting(Purged(g), z, k);
            && o.err.None? && o.phase == Deleting && Ends(g, spec, y.w, o.y.w) && Mirrors(g, y, o.y, z, p.y)
            && (SameSys(y, z) && Left(g, o.y.w) == Left(g, y.w) ==> p.err.None? && p.phase == Deleting)
  {
    hide Good, Left, Moves, Attended, Fair, Purged, UpdateStatus, HandleReconcileError, AllGoing, R.CheckAbsent, R.RequiredAbsent,
      AwaitChildren, RemoveFinalizer, Mark3;
    var m := Mark3(k, False, DeletingResource, False, DeletingResource, True, DeletingResource, y.t);
    Mark3Only(k, False, DeletingResource, False, DeletingResource, True, DeletingResource, y.t);
    SaveMoves(g, spec, y, z, m.status);
    var u, v := UpdateStatus(g, y, m.status), UpdateStatus(Purged(g), z, m.status);
    MovesLeft(g, spec, y.w, u.y.w);
    StillFair(g, spec, y.w, u.y.w);
    PurgedKeys(g, spec);
    AbsentMoves(g, spec, u.y, v.y, R.RequiredAbsent(g, spec));
    var c, d := R.CheckResourcesDeleted(g, u.y, spec), R.CheckResourcesDeleted(Purged(g), v.y, spec);
    MovesLeft(g, spec, u.y.w, c.y.w);
    MovesOn(g, spec, y.w, u.y.w, c.y.w);
    StillFair(g, spec, y.w, c.y.w);
    StillGoodCopy(g, spec, y.w, c.y.w, k, m);
    if c.out.value {
      ReleaseEnds(g, spec, c.y, d.y);
    } else {
      AwaitMoves(g, spec, c.y, d.y, m);
      var o := AwaitChildren(g, c.y, m);
      MovesLeft(g, spec, c.y.w, o.y.w);
      MovesOn(g, spec, y.w, c.y.w, o.y.w);
    }
  }

  // ---- the whole reconcile ----

  lemma EndsOn(g: Setting, spec: KodeSpec, u: World, v: World, w: World)
    requires Moves(g, spec, u, v) && Ends(g, spec, v, w)
    ensures Ends(g, spec, u, w)
  {
    MovesLeft(g, spec, u, v);
    hide Moves, Left;
    if w.kode.Some? { MovesOn(g, spec, u, v, w); }
  }

  lemma HandlesDeleting(g: Setting, y: Sys, k: Kode)
    requires k.status.phase == Deleting && HandleDeleting(g, y, k).err.None? && HandleDeleting(g, y, k).phase == Deleting
    ensures HandleState(g, y, k).y == HandleDeleting(g, y, k).y
  {
    hide HandleDeleting, UpdateStatus;
  }

  lemma StateEnds(g: Setting, spec: KodeSpec, y: Sys, z: Sys, k: Kode)
    requires Attended(g) && Fair(g, y.w) && Good(g, spec, y.w) && GoodCopy(g, spec, y.w.children, k)
    ensures var d, e := HandleState(g, y, k), HandleState(Purged(g), z, k);
            Ends(g, spec, y.w, d.y.w) && Mirrors(g, y, d.y, z, e.y)
  {
    hide Good, Ends, Attended, Fair, Purged, AllGoing, HandleState, HandleDeleting, Left, SameSys;
    DeletingEnds(g, spec, y, z, k);
    HandlesDeleting(g, y, k);
    if SameSys(y, z) && Left(g, HandleDeleting(g, y, k).y.w) == Left(g, y.w) {
      HandlesDeleting(Purged(g), z, k);
    }
  }

  lemma MachineEnds(g: Setting, spec: KodeSpec, y: Sys, z: Sys, k: Kode)
    requires Attended(g) && Fair(g, y.w) && Good(g, spec, y.w) && GoodCopy(g, spec, y.w.children, k)
    ensures var d, e := RunMachine(g, y, k), RunMachine(Purged(g), z, k);
            Ends(g, spec, y.w, d.y.w) && Mirrors(g, y, d.y, z, e.y)
  {
    hide Good, Moves, Ends, Attended, Fair, Purged, UpdateStatus, HandleState, AllGoing, Left, SameSys;
    if k.status.retryCount > 0 {
      var m := k.(status := k.status.(retryCount := 0));
      SaveMoves(g, spec, y, z, m.status);
      var u, v := UpdateStatus(g, y, m.status), UpdateStatus(Purged(g), z, m.status);
      MovesLeft(g, spec, y.w, u.y.w);
      StillFair(g, spec, y.w, u.y.w);
      StillGoodCopy(g, spec, y.w, u.y.w, k, m);
      StateEnds(g, spec, u.y, v.y, m);
      EndsOn(g, spec, y.w, u.y.w, HandleState(g, u.y, m).y.w);
      EndsLeft(g, spec, u.y.w, HandleState(g, u.y, m).y.w);
    } else {
      StateEnds(g, spec, y, z, k);
    }
  }

  lemma EndsLeft(g: Setting, spec: KodeSpec, w: World, v: World)
    requires Ends(g, spec, w, v)
    ensures Left(g, v) <= Left(g, w)
    ensures v.kode.Some? ==> Moves(g, spec, w, v) && Good(g, spec, v)
  {
    if v.kode.Some? { MovesLeft(g, spec, w, v); }
    hide Left, Moves, Good;
  }

  lemma GateEnds(g: Setting, spec: KodeSpec, y: Sys, z: Sys, k: Kode)
    requires Attended(g) && Fair(g, y.w) && Good(g, spec, y.w) && GoodCopy(g, spec, y.w.children, k)
    ensures var d, e := AfterDeletionGate(g, y, k), AfterDeletionGate(Purged(g), z, k);
            Ends(g, spec, y.w, d.y.w) && Mirrors(g, y, d.y, z, e.y)
  {
    hide Good, Moves, Attended, Fair, Purged, UpdateStatus, RunMachine, AllGoing, Left, SameSys;
    if k.generation != k.status.observedGeneration {
      var s := k.status.(observedGeneration := k.generation);
      SaveMoves(g, spec, y, z, s);
      MovesLeft(g, spec, y.w, UpdateStatus(g, y, s).y.w);
    } else {
      MachineEnds(g, spec, y, z, k);
    }
  }

  lemma ReadCopy(g: Setting, spec: KodeSpec, w: World)
    requires Good(g, spec, w)
    ensures w.kode.Some? && GoodCopy(g, spec, w.children, WithPhase(w.kode.value, Deleting))
  {
    hide AllGoing, Free;
  }

  lemma ReconcileEnds(g: Setting, spec: KodeSpec, y: Sys, z: Sys)
    requires Attended(g) && Fair(g, y.w) && Good(g, spec, y.w)
    ensures var d, e := Reconcile(g, y), Reconcile(Purged(g), z);
            Ends(g, spec, y.w, d.y.w) && Mirrors(g, y, d.y, z, e.y)
  {
    hide Good, Moves, Ends, Attended, Fair, Purged, UpdateStatus, AfterDeletionGate, Enter, AllGoing, Left;
    EnterMoves(g, spec, y, z);
    var e, f := Enter(g, y), Enter(Purged(g), z);
    MovesLeft(g, spec, y.w, e.w);
    StillFair(g, spec, y.w, e.w);
    ReadCopy(g, spec, e.w);
    GoodHas(g, spec, e.w);
    var m := WithPhase(e.w.kode.value, Deleting);
    SaveMoves(g, spec, e, f, m.status);
    var u, v := UpdateStatus(g, e, m.status), UpdateStatus(Purged(g), f, m.status);
    MovesLeft(g, spec, e.w, u.y.w);
    MovesOn(g, spec, y.w, e.w, u.y.w);
    StillFair(g, spec, e.w, u.y.w);
    StillGoodCopy(g, spec, e.w, u.y.w, m, m);
    GateEnds(g, spec, u.y, v.y, m);
    var d := AfterDeletionGate(g, u.y, m);
    EndsLeft(g, spec, u.y.w, d.y.w);
    EndsOn(g, spec, y.w, u.y.w, d.y.w);
    assert Reconcile(g, y).y == d.y;
  }

  lemma RoundEnds(g: Setting, spec: KodeSpec, y: Sys, z: Sys)
    requires Attended(g) && Fair(g, y.w) && Good(g, spec, y.w)
    ensures Ends(g, spec, y.w, Round(g, y).w)
    ensures Round(g, y).w.kode.Some? ==> Mirrors(g, y, Round(g, y), z, Round(Purged(g), z))
  {
    hide Good, Moves, Attended, Fair, Purged, Reconcile, Enter, AllGoing, Left, SameSys;
    var r, s := Reconcile(g, y).y, Reconcile(Purged(g), z).y;
    ReconcileEnds(g, spec, y, z);
    EndsLeft(g, spec, y.w, r.w);
    if r.w.kode.Some? {
      StillFair(g, spec, y.w, r.w);
      EnterMoves(g, spec, r, s);
      MovesLeft(g, spec, r.w, Enter(g, r).w);
      MovesOn(g, spec, y.w, r.w, Enter(g, r).w);
    } else {
      GoneStays(g, r);
      NoneLeft(g, Enter(g, r).w);
    }
  }

  lemma NoneLeft(g: Setting, w: World)
    ensures w.kode.None? ==> Left(g, w) == 0
  {
  }

  lemma {:induction false} RoundsMirror(g: Setting, spec: KodeSpec, y: Sys, z: Sys, n: nat)
    requires Attended(g) && Fair(g, y.w) && Good(g, spec, y.w)
    ensures Ends(g, spec, y.w, Rounds(g, y, n).w)
    ensures Rounds(g, y, n).w.kode.Some? ==> Mirrors(g, y, Rounds(g, y, n), z, Rounds(Purged(g), z, n))
    decreases n
  {
    hide Good, Moves, Ends, Attended, Fair, Purged, Round, AllGoing, Left, SameSys;
    if n == 0 {
      NoMove(g, spec, y.w);
      NoEnd(g, spec, y.w);
    } else {
      var r, s := Round(g, y), Round(Purged(g), z);
      RoundEnds(g, spec, y, z);
      EndsLeft(g, spec, y.w, r.w);
      if r.w.kode.Some? {
        StillFair(g, spec, y.w, r.w);
        RoundsMirror(g, spec, r, s, n - 1);
        EndsLeft(g, spec, r.w, Rounds(g, r, n - 1).w);
        EndsOn(g, spec, y.w, r.w, Rounds(g, r, n - 1).w);
      } else {
        GoneForGood(g, r, n - 1);
        GoneEnds(g, spec, y.w, Rounds(g, r, n - 1).w);
      }
    }
  }

  lemma NoEnd(g: Setting, spec: KodeSpec, w: World)
    requires Moves(g, spec, w, w)
    ensures Ends(g, spec, w, w)
  {
    hide Moves, Left;
  }

  lemma GoneEnds(g: Setting, spec: KodeSpec, w: World, v: World)
    requires v.kode.None?
    ensures Ends(g, spec, w, v)
  {
    hide Moves;
  }

  // ---- deletion ends ----

  lemma PurgedEnds(g: Setting, spec: KodeSpec, y: Sys)
    requires Attended(g) && Good(g, spec, y.w) && SweepsAll(g, R.RequiredAbsent(g, spec))
    ensures Rounds(Purged(g), y, 7).w.kode.None?
  {
    GoodHas(g, spec, y.w);
    PurgedIsUnattended(g);
    PurgedKeys(g, spec);
    forall key | key in R.RequiredAbsent(g, spec) ensures Steps.Sweeps(Purged(g), key) {
      PurgedSweeps(g, key);
    }
    GoodIsDeleted(g, spec, y.w);
    hide Good, Purged, Unattended, Attended, Rounds, R.RequiredAbsent, R.ShouldDelete, Exists, Steps.Sweeps;
    DeletionEndsExactly(Purged(g), y);
  }

  lemma GoodIsDeleted(g: Setting, spec: KodeSpec, w: World)
    requires Good(g, spec, w)
    ensures Deleted(w)
    ensures forall key :: key in R.RequiredAbsent(g, spec) && Exists(w.children, key) ==>
              key in w.children.terminating || (w.kode.value.status.deletionCycle == 0 && R.ShouldDelete(spec, key))
  {
    hide R.RequiredAbsent, R.ShouldDelete, Exists;
    forall key | key in R.RequiredAbsent(g, spec) && Exists(w.children, key)
      ensures key in w.children.terminating || (w.kode.value.status.deletionCycle == 0 && R.ShouldDelete(spec, key))
    {
      assert Going(w.children, key) || R.ShouldDelete(spec, key);
    }
  }

  /** In seven rounds the Kode goes, or a write is spent. */
  lemma SevenRounds(g: Setting, spec: KodeSpec, y: Sys)
    requires Attended(g) && Fair(g, y.w) && Good(g, spec, y.w) && SweepsAll(g, R.RequiredAbsent(g, spec))
    ensures var x := Rounds(g, y, 7);
            x.w.kode.Some? ==> Good(g, spec, x.w) && Fair(g, x.w) && Left(g, x.w) < Left(g, y.w)
  {
    hide Good, Moves, Ends, Fair, Attended, Purged, SweepsAll, Rounds, Left;
    RoundsMirror(g, spec, y, y, 7);
    PurgedEnds(g, spec, y);
    var x := Rounds(g, y, 7);
    EndsLeft(g, spec, y.w, x.w);
    if x.w.kode.Some? {
      StillFair(g, spec, y.w, x.w);
    }
  }

  lemma {:induction false} RoundsSplit(g: Setting, y: Sys, a: nat, b: nat)
    ensures Rounds(g, y, a + b) == Rounds(g, Rounds(g, y, a), b)
    decreases a
  {
    hide Round;
    if a > 0 {
      RoundsSplit(g, Round(g, y), a - 1, b);
    }
  }

  lemma {:induction false} ServedEnds(g: Setting, spec: KodeSpec, y: Sys, writes: nat)
    requires Attended(g) && Fair(g, y.w) && Good(g, spec, y.w) && SweepsAll(g, R.RequiredAbsent(g, spec))
    requires Left(g, y.w) <= writes
    ensures Rounds(g, y, 7 * (writes + 1)).w.kode.None?
    decreases writes
  {
    hide Good, Fair, Attended, SweepsAll, Rounds, Left;
    SevenRounds(g, spec, y);
    var x := Rounds(g, y, 7);
    RoundsSplit(g, y, 7, 7 * writes);
    assert 7 + 7 * writes == 7 * (writes + 1);
    if x.w.kode.None? {
      GoneForGood(g, x, 7 * writes);
    } else {
      ServedEnds(g, spec, x, writes - 1);
    }
  }
}

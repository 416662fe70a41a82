/** internal/template/template.go: fetching a template with its entry point, and the cache in front. */
module Templates {
  import opened KodeTypes

  /** The templates and entry points stored in the cluster. */
  datatype Store = Store(
    namespaced: map<(string, string), TemplateSpec>,
    clusterWide: map<string, TemplateSpec>,
    entryPoints: map<string, EntryPoint>)

  const CONTAINER := "ContainerTemplate"
  const CLUSTER_CONTAINER := "ClusterContainerTemplate"
  const STEPS: nat := 5

  predicate IsContainerKind(kind: string) { kind == CONTAINER || kind == CLUSTER_CONTAINER }

  function NamespaceOf(ref: Reference): string { if ref.namespace.Some? then ref.namespace.value else "" }

  /** getCacheKey. */
  function CacheKey(ref: Reference): string { ref.kind + "/" + NamespaceOf(ref) + "/" + ref.name }

  /** validateRef. */
  predicate ValidRef(ref: Reference) { ref.kind != "" && ref.name != "" }

  /** fetchContainerTemplate and fetchClusterContainerTemplate. */
  function MainTemplate(store: Store, ref: Reference): Outcome<TemplateSpec> {
    if ref.kind == CONTAINER then
      if (NamespaceOf(ref), ref.name) in store.namespaced
      then Ok(store.namespaced[(NamespaceOf(ref), ref.name)]) else Bad(TemplateMissing)
    else if ref.kind == CLUSTER_CONTAINER then
      if ref.name in store.clusterWide then Ok(store.clusterWide[ref.name]) else Bad(TemplateMissing)
    else Bad(UnknownKind)
  }

  /** fetchTemplate, where `up` says whether the template read and the entry point read get through. */
  function FetchOnce(store: Store, ref: Reference, up: (bool, bool)): Outcome<Template> {
    if IsContainerKind(ref.kind) && !up.0 then Bad(Refused)
    else match MainTemplate(store, ref)
      case Bad(e) => Bad(e)
      case Ok(spec) =>
        if spec.entryPointRef.None? then Ok(Template(ref.name, spec, None))
        else if !up.1 then Bad(Refused)
        else
          var name := spec.entryPointRef.value.name;
          Ok(Template(ref.name, spec, if name in store.entryPoints then Some(store.entryPoints[name]) else None))
  }

  /** fetchTemplate when every read gets through. */
  function FetchTemplate(store: Store, ref: Reference): Outcome<Template> { FetchOnce(store, ref, (true, true)) }

  /** What a caller of Fetch sees: any failure after the retries is one opaque error. */
  function Visible(store: Store, ref: Reference): Outcome<Template> {
    if !ValidRef(ref) then Bad(BadReference)
    else match FetchTemplate(store, ref)
      case Ok(t) => Ok(t)
      case Bad(_) => Bad(Refused)
  }

  /** The error that would have stopped the retries is never produced: a missing template is a
      TemplateNotFoundError and a missing entry point is not an error. */
  lemma NotFoundNeverStopsRetries(store: Store, ref: Reference, up: (bool, bool))
    ensures FetchOnce(store, ref, up) != Bad(NotFound)
  {
  }

  /** A read that gets through returns the stored template: failures can hide it, never change it. */
  lemma AttemptsAgree(store: Store, ref: Reference, up: (bool, bool))
    ensures FetchOnce(store, ref, up).Ok? ==> FetchOnce(store, ref, up) == FetchTemplate(store, ref)
    ensures up == (true, true) ==> FetchOnce(store, ref, up) == FetchTemplate(store, ref)
  {
  }

  predicate NoSlash(s: string) { '/' !in s }

  /** The patterns of Kind and Namespace exclude the slash; names may hold one. */
  predicate Legal(ref: Reference) { NoSlash(ref.kind) && NoSlash(NamespaceOf(ref)) }

  lemma NoSlashBefore(a: string, x: string)
    requires NoSlash(a)
    ensures forall i :: 0 <= i < |a| ==> (a + "/" + x)[i] != '/'
  {
    forall i | 0 <= i < |a| ensures (a + "/" + x)[i] != '/' {
      assert a[i] in a;
    }
  }

  lemma SplitAtSlash(a: string, x: string, b: string, y: string)
    requires NoSlash(a) && NoSlash(b) && a + "/" + x == b + "/" + y
    ensures a == b && x == y
  {
    NoSlashBefore(a, x);
    NoSlashBefore(b, y);
    var whole := a + "/" + x;
    assert whole[|a|] == '/' && (b + "/" + y)[|b|] == '/';
    assert |a| == |b|;
    assert a == whole[..|a|] && b == (b + "/" + y)[..|b|];
    assert x == whole[|a| + 1..] && y == (b + "/" + y)[|b| + 1..];
  }

  /** getCacheKey is injective on kind, namespace and name. */
  lemma CacheKeyInjective(r: Reference, s: Reference)
    requires Legal(r) && Legal(s)
    ensures CacheKey(r) == CacheKey(s) <==> r.kind == s.kind && NamespaceOf(r) == NamespaceOf(s) && r.name == s.name
  {
    if CacheKey(r) == CacheKey(s) {
      assert CacheKey(r) == r.kind + "/" + (NamespaceOf(r) + "/" + r.name);
      assert CacheKey(s) == s.kind + "/" + (NamespaceOf(s) + "/" + s.name);
      SplitAtSlash(r.kind, NamespaceOf(r) + "/" + r.name, s.kind, NamespaceOf(s) + "/" + s.name);
      SplitAtSlash(NamespaceOf(r), r.name, NamespaceOf(s), s.name);
    }
  }

  /** Without the pattern on namespaces two templates share a key. */
  lemma SlashInNamespaceCollides()
    ensures exists r: Reference, s: Reference :: NoSlash(r.kind) && NoSlash(s.kind) && CacheKey(r) == CacheKey(s) && r.name != s.name
  {
    var r := Reference("K", "b/c", Some("a"));
    var s := Reference("K", "c", Some("a/b"));
    assert CacheKey(r) == "K/a/b/c" == CacheKey(s);
    assert NoSlash(r.kind) && NoSlash(s.kind) && r.name != s.name;
  }

  /** Every cached template is what an uncached fetch of every legal reference with its key returns. */
  ghost predicate Coherent(store: Store, cache: map<string, Template>) {
    forall ref: Reference :: Legal(ref) && CacheKey(ref) in cache ==> FetchTemplate(store, ref) == Ok(cache[CacheKey(ref)])
  }

  lemma SameKeySameTemplate(store: Store, r: Reference, s: Reference)
    requires Legal(r) && Legal(s) && CacheKey(r) == CacheKey(s)
    ensures FetchTemplate(store, r) == FetchTemplate(store, s)
  {
    CacheKeyInjective(r, s);
  }

  lemma CoherentAdd(store: Store, cache: map<string, Template>, ref: Reference)
    requires Coherent(store, cache) && Legal(ref) && FetchTemplate(store, ref).Ok?
    ensures Coherent(store, cache[CacheKey(ref) := FetchTemplate(store, ref).value])
  {
    forall r: Reference | Legal(r) && CacheKey(r) == CacheKey(ref)
      ensures FetchTemplate(store, r) == FetchTemplate(store, ref)
    {
      SameKeySameTemplate(store, r, ref);
    }
  }

  /** The outcome of the attempts from `from` on: the first that gets through, or one opaque error. */
  function Attempts(store: Store, ref: Reference, up: nat -> (bool, bool), from: nat): (r: Outcome<Template>)
    requires from <= STEPS
    ensures r.Ok? ==> r == FetchTemplate(store, ref)
    ensures r.Bad? ==> r == Bad(Refused) && forall i: nat :: from <= i < STEPS ==> FetchOnce(store, ref, up(i)).Bad?
    decreases STEPS - from
  {
    if from == STEPS then Bad(Refused)
    else
      var t := FetchOnce(store, ref, up(from));
      if t.Ok? then AttemptsAgree(store, ref, up(from)); t
      else Attempts(store, ref, up, from + 1)
  }

  /** One Fetch: its answer and the cache it leaves. */
  function Fetch(store: Store, cache: map<string, Template>, ref: Reference, up: nat -> (bool, bool))
    : (Outcome<Template>, map<string, Template>)
  {
    if !ValidRef(ref) then (Bad(BadReference), cache)
    else if CacheKey(ref) in cache then (Ok(cache[CacheKey(ref)]), cache)
    else
      var t := Attempts(store, ref, up, 0);
      (t, if t.Ok? then cache[CacheKey(ref) := t.value] else cache)
  }

  /** DefaultTemplateManager. */
  class TemplateManager {
    var cache: map<string, Template>

    constructor ()
      ensures cache == map[]
    {
      cache := map[];
    }

    /** `up(i)` says which reads of attempt i get through. */
    method FetchRef(store: Store, ref: Reference, up: nat -> (bool, bool)) returns (r: Outcome<Template>)
      modifies this
      ensures (r, cache) == Fetch(store, old(cache), ref, up)
    {
      if !ValidRef(ref) {
        return Bad(BadReference);
      }
      var key := CacheKey(ref);
      if key in cache {
        return Ok(cache[key]);
      }
      r := Bad(Refused);
      var step := 0;
      while step < STEPS && r.Bad?
        invariant step <= STEPS && cache == old(cache)
        invariant r.Ok? ==> r == Attempts(store, ref, up, 0)
        invariant r.Bad? ==> r == Bad(Refused) && Attempts(store, ref, up, 0) == Attempts(store, ref, up, step)
        decreases STEPS - step
      {
        var t := FetchOnce(store, ref, up(step));
        NotFoundNeverStopsRetries(store, ref, up(step));
        if t.Ok? {
          r := t;
        }
        step := step + 1;
      }
      if r.Ok? {
        cache := cache[key := r.value];
      }
    }
  }

  datatype Call = Call(ref: Reference, up: nat -> (bool, bool))

  /** The answers to a sequence of calls. */
  function Answers(store: Store, cache: map<string, Template>, calls: seq<Call>): seq<Outcome<Template>>
    decreases |calls|
  {
    if calls == [] then []
    else
      var (t, next) := Fetch(store, cache, calls[0].ref, calls[0].up);
      [t] + Answers(store, next, calls[1..])
  }

  lemma FetchKeepsCoherent(store: Store, cache: map<string, Template>, c: Call)
    requires Coherent(store, cache) && Legal(c.ref)
    ensures Coherent(store, Fetch(store, cache, c.ref, c.up).1)
    ensures var t := Fetch(store, cache, c.ref, c.up).0;
            && (t.Ok? ==> t == Visible(store, c.ref))
            && ((forall i: nat :: c.up(i) == (true, true)) ==> t == Visible(store, c.ref))
  {
    var t := Attempts(store, c.ref, c.up, 0);
    if t.Ok? {
      CoherentAdd(store, cache, c.ref);
    } else {
      assert FetchOnce(store, c.ref, c.up(0)).Bad?;
    }
  }

  /** Cache refinement: with an unchanged store the cache is invisible. Whatever the order of the
      calls and whichever reads fail, a call that answers with a template answers with the stored one,
      and a call whose reads all get through answers exactly as an uncached fetch. */
  lemma {:induction false} CacheIsInvisible(store: Store, cache: map<string, Template>, calls: seq<Call>)
    requires Coherent(store, cache)
    requires forall i :: 0 <= i < |calls| ==> Legal(calls[i].ref)
    ensures |Answers(store, cache, calls)| == |calls|
    ensures forall i :: 0 <= i < |calls| && Answers(store, cache, calls)[i].Ok? ==>
              Answers(store, cache, calls)[i] == Visible(store, calls[i].ref)
    ensures forall i :: 0 <= i < |calls| && (forall n: nat :: calls[i].up(n) == (true, true)) ==>
              Answers(store, cache, calls)[i] == Visible(store, calls[i].ref)
    decreases |calls|
  {
    if calls != [] {
      FetchKeepsCoherent(store, cache, calls[0]);
      CacheIsInvisible(store, Fetch(store, cache, calls[0].ref, calls[0].up).1, calls[1..]);
    }
  }

  /** Once a template is cached the cache hides every later change of the store. */
  lemma CacheHidesChanges(before: Store, after: Store, ref: Reference, up: nat -> (bool, bool), later: nat -> (bool,
                          bool))
    requires ValidRef(ref) && up(0) == (true, true) && FetchTemplate(before, ref).Ok?
    ensures var cache := Fetch(before, map[], ref, up).1;
            Fetch(after, cache, ref, later).0 == FetchTemplate(before, ref)
  {
  }
}

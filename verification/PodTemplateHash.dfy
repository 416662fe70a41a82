/** calculatePodTemplateHash of internal/controllers/kode/ensure_container_statefulset.go: the bytes
    it feeds to the hasher, and which changes of a pod template they can tell apart. The digest is
    a parameter; nothing here depends on which function it is. */
module PodTemplateHash {
  import opened KodeTypes

  datatype PodTemplate = PodTemplate(containers: seq<Container>, inits: seq<Container>, volumes: seq<Volume>)

  function Concat<T>(f: T -> string, xs: seq<T>): string {
    if xs == [] then [] else f(xs[0]) + Concat(f, xs[1..])
  }

  function EnvBytes(e: EnvVar): string { e.name + e.value }

  function ContainerBytes(c: Container): string { c.image + c.name + Concat(EnvBytes, c.env) }

  function InitBytes(c: Container): string { c.image + c.name }

  function VolumeBytes(v: Volume): string { v.name }

  function Bytes(t: PodTemplate): string {
    Concat(ContainerBytes, t.containers) + Concat(InitBytes, t.inits) + Concat(VolumeBytes, t.volumes)
  }

  lemma {:induction false} ConcatAppend<T>(f: T -> string, xs: seq<T>, ys: seq<T>)
    ensures Concat(f, xs + ys) == Concat(f, xs) + Concat(f, ys)
  {
    if xs == [] {
      assert xs + ys == ys;
    } else {
      ConcatAppend(f, xs[1..], ys);
      assert (xs + ys)[1..] == xs[1..] + ys;
      assert Concat(f, xs + ys) == f(xs[0]) + (Concat(f, xs[1..]) + Concat(f, ys));
    }
  }

  lemma ConcatOne<T>(f: T -> string, x: T)
    ensures Concat(f, [x]) == f(x)
  {
    assert [x][1..] == [];
    assert f(x) + [] == f(x);
  }

  lemma ConcatUpdate<T>(f: T -> string, xs: seq<T>, i: nat, x: T)
    requires i < |xs|
    ensures Concat(f, xs[i := x]) == Concat(f, xs[..i]) + f(x) + Concat(f, xs[i + 1..])
  {
    assert xs[i := x] == xs[..i] + ([x] + xs[i + 1..]);
    ConcatAppend(f, xs[..i], [x] + xs[i + 1..]);
    ConcatAppend(f, [x], xs[i + 1..]);
    ConcatOne(f, x);
    assert Concat(f, xs[..i]) + (f(x) + Concat(f, xs[i + 1..])) == Concat(f, xs[..i]) + f(x) + Concat(f, xs[i + 1..]);
  }

  lemma ConcatNext<T>(f: T -> string, xs: seq<T>, i: nat)
    requires i < |xs|
    ensures Concat(f, xs[..i + 1]) == Concat(f, xs[..i]) + f(xs[i])
  {
    assert xs[..i + 1] == xs[..i] + [xs[i]];
    ConcatAppend(f, xs[..i], [xs[i]]);
    ConcatOne(f, xs[i]);
  }

  lemma Regroup(a: string, b: string, c: string, d: string)
    ensures a + b + c + d == a + (b + (c + d))
    ensures d == [] ==> a + b + c == a + (b + c)
  {
  }

  lemma Regroup3(a: string, b: string, c: string, d: string)
    ensures a + b + c + d == a + (b + c + d)
  {
  }

  method CalculatePodTemplateHash(
      sha: string -> string, containers: seq<Container>, inits: seq<Container>, volumes: seq<Volume>)
    returns (digest: string)
    ensures digest == sha(Bytes(PodTemplate(containers, inits, volumes)))
  {
    var fed: string := [];
    for i := 0 to |containers|
      invariant fed == Concat(ContainerBytes, containers[..i])
    {
      var c := containers[i];
      ghost var before := fed;
      fed := fed + c.image;
      fed := fed + c.name;
      for j := 0 to |c.env|
        invariant fed == before + c.image + c.name + Concat(EnvBytes, c.env[..j])
      {
        ConcatNext(EnvBytes, c.env, j);
        Regroup(before + c.image + c.name, Concat(EnvBytes, c.env[..j]), c.env[j].name, c.env[j].value);
        fed := fed + c.env[j].name;
        fed := fed + c.env[j].value;
      }
      assert c.env[..|c.env|] == c.env;
      Regroup3(before, c.image, c.name, Concat(EnvBytes, c.env));
      ConcatNext(ContainerBytes, containers, i);
    }
    assert containers[..|containers|] == containers;
    ghost var main := fed;
    for i := 0 to |inits|
      invariant fed == main + Concat(InitBytes, inits[..i])
    {
      ConcatNext(InitBytes, inits, i);
      Regroup(main, Concat(InitBytes, inits[..i]), inits[i].image, inits[i].name);
      fed := fed + inits[i].image;
      fed := fed + inits[i].name;
    }
    assert inits[..|inits|] == inits;
    ghost var both := fed;
    for i := 0 to |volumes|
      invariant fed == both + Concat(VolumeBytes, volumes[..i])
    {
      ConcatNext(VolumeBytes, volumes, i);
      Regroup(both, Concat(VolumeBytes, volumes[..i]), volumes[i].name, []);
      fed := fed + volumes[i].name;
    }
    assert volumes[..|volumes|] == volumes;
    digest := sha(fed);
  }

  /** One string somewhere in a pod template. */
  datatype Site =
    | Image(i: nat) | Name(i: nat) | EnvName(i: nat, j: nat) | EnvValue(i: nat, j: nat)
    | InitImage(i: nat) | InitName(i: nat) | VolumeName(i: nat)

  predicate Within(t: PodTemplate, s: Site) {
    match s
    case Image(i) => i < |t.containers|
    case Name(i) => i < |t.containers|
    case EnvName(i, j) => i < |t.containers| && j < |t.containers[i].env|
    case EnvValue(i, j) => i < |t.containers| && j < |t.containers[i].env|
    case InitImage(i) => i < |t.inits|
    case InitName(i) => i < |t.inits|
    case VolumeName(i) => i < |t.volumes|
  }

  function At(t: PodTemplate, s: Site): string
    requires Within(t, s)
  {
    match s
    case Image(i) => t.containers[i].image
    case Name(i) => t.containers[i].name
    case EnvName(i, j) => t.containers[i].env[j].name
    case EnvValue(i, j) => t.containers[i].env[j].value
    case InitImage(i) => t.inits[i].image
    case InitName(i) => t.inits[i].name
    case VolumeName(i) => t.volumes[i].name
  }

  function WithContainer(t: PodTemplate, i: nat, c: Container): PodTemplate
    requires i < |t.containers|
  {
    t.(containers := t.containers[i := c])
  }

  function Edited(t: PodTemplate, s: Site, v: string): PodTemplate
    requires Within(t, s)
  {
    match s
    case Image(i) => WithContainer(t, i, t.containers[i].(image := v))
    case Name(i) => WithContainer(t, i, t.containers[i].(name := v))
    case EnvName(i, j) =>
      WithContainer(t, i, t.containers[i].(env := t.containers[i].env[j := t.containers[i].env[j].(name := v)]))
    case EnvValue(i, j) =>
      WithContainer(t, i, t.containers[i].(env := t.containers[i].env[j := t.containers[i].env[j].(value := v)]))
    case InitImage(i) => t.(inits := t.inits[i := t.inits[i].(image := v)])
    case InitName(i) => t.(inits := t.inits[i := t.inits[i].(name := v)])
    case VolumeName(i) => t.(volumes := t.volumes[i := t.volumes[i].(name := v)])
  }

  /** `a` and `b` differ at most in that one holds `u` where the other holds `v`. */
  ghost predicate Differ(a: string, b: string, u: string, v: string) {
    exists pre: string, post: string :: a == pre + u + post && b == pre + v + post
  }

  lemma DifferHere(u: string, v: string)
    ensures Differ(u, v, u, v)
  {
    assert u == [] + u + [] && v == [] + v + [];
  }

  lemma DifferBefore(a: string, b: string, u: string, v: string, z: string)
    requires Differ(a, b, u, v)
    ensures Differ(a + z, b + z, u, v)
  {
    var pre, post :| a == pre + u + post && b == pre + v + post;
    assert a + z == pre + u + (post + z) && b + z == pre + v + (post + z);
  }

  lemma DifferAfter(z: string, a: string, b: string, u: string, v: string)
    requires Differ(a, b, u, v)
    ensures Differ(z + a, z + b, u, v)
  {
    var pre, post :| a == pre + u + post && b == pre + v + post;
    assert z + a == (z + pre) + u + post && z + b == (z + pre) + v + post;
  }

  lemma DifferIff(a: string, b: string, u: string, v: string)
    requires Differ(a, b, u, v)
    ensures a == b <==> u == v
  {
    var pre, post :| a == pre + u + post && b == pre + v + post;
    if a == b {
      assert |u| == |v|;
      assert u == a[|pre|..|pre| + |u|];
      assert v == b[|pre|..|pre| + |v|];
    }
  }

  /** One element of a list that differs in one place makes the list differ in one place. */
  lemma DifferInList<T>(f: T -> string, xs: seq<T>, i: nat, x: T, u: string, v: string)
    requires i < |xs| && Differ(f(xs[i]), f(x), u, v)
    ensures Differ(Concat(f, xs), Concat(f, xs[i := x]), u, v)
  {
    assert xs[i := xs[i]] == xs;
    ConcatUpdate(f, xs, i, xs[i]);
    ConcatUpdate(f, xs, i, x);
    DifferAfter(Concat(f, xs[..i]), f(xs[i]), f(x), u, v);
    DifferBefore(Concat(f, xs[..i]) + f(xs[i]), Concat(f, xs[..i]) + f(x), u, v, Concat(f, xs[i + 1..]));
  }

  lemma DifferInEnv(c: Container, j: nat, e: EnvVar, u: string, v: string)
    requires j < |c.env| && Differ(EnvBytes(c.env[j]), EnvBytes(e), u, v)
    ensures Differ(ContainerBytes(c), ContainerBytes(c.(env := c.env[j := e])), u, v)
  {
    DifferInList(EnvBytes, c.env, j, e, u, v);
    DifferAfter(c.image + c.name, Concat(EnvBytes, c.env), Concat(EnvBytes, c.env[j := e]), u, v);
  }

  lemma DifferInContainer(t: PodTemplate, i: nat, c: Container, u: string, v: string)
    requires i < |t.containers| && Differ(ContainerBytes(t.containers[i]), ContainerBytes(c), u, v)
    ensures Differ(Bytes(t), Bytes(WithContainer(t, i, c)), u, v)
  {
    var a, b := Concat(ContainerBytes, t.containers), Concat(ContainerBytes, t.containers[i := c]);
    var inits, volumes := Concat(InitBytes, t.inits), Concat(VolumeBytes, t.volumes);
    DifferInList(ContainerBytes, t.containers, i, c, u, v);
    DifferBefore(a, b, u, v, inits);
    DifferBefore(a + inits, b + inits, u, v, volumes);
  }

  lemma DifferInInit(t: PodTemplate, i: nat, c: Container, u: string, v: string)
    requires i < |t.inits| && Differ(InitBytes(t.inits[i]), InitBytes(c), u, v)
    ensures Differ(Bytes(t), Bytes(t.(inits := t.inits[i := c])), u, v)
  {
    var a, b := Concat(InitBytes, t.inits), Concat(InitBytes, t.inits[i := c]);
    var main := Concat(ContainerBytes, t.containers);
    DifferInList(InitBytes, t.inits, i, c, u, v);
    DifferAfter(main, a, b, u, v);
    DifferBefore(main + a, main + b, u, v, Concat(VolumeBytes, t.volumes));
  }

  lemma EditDiffers(t: PodTemplate, s: Site, v: string)
    requires Within(t, s)
    ensures Differ(Bytes(t), Bytes(Edited(t, s, v)), At(t, s), v)
  {
    var u := At(t, s);
    DifferHere(u, v);
    match s {
      case Image(i) =>
        var c := t.containers[i];
        DifferBefore(u, v, u, v, c.name);
        DifferBefore(u + c.name, v + c.name, u, v, Concat(EnvBytes, c.env));
        DifferInContainer(t, i, c.(image := v), u, v);
      case Name(i) =>
        var c := t.containers[i];
        DifferAfter(c.image, u, v, u, v);
        DifferBefore(c.image + u, c.image + v, u, v, Concat(EnvBytes, c.env));
        DifferInContainer(t, i, c.(name := v), u, v);
      case EnvName(i, j) =>
        var c, e := t.containers[i], t.containers[i].env[j];
        DifferBefore(u, v, u, v, e.value);
        DifferInEnv(c, j, e.(name := v), u, v);
        DifferInContainer(t, i, c.(env := c.env[j := e.(name := v)]), u, v);
      case EnvValue(i, j) =>
        var c, e := t.containers[i], t.containers[i].env[j];
        DifferAfter(e.name, u, v, u, v);
        DifferInEnv(c, j, e.(value := v), u, v);
        DifferInContainer(t, i, c.(env := c.env[j := e.(value := v)]), u, v);
      case InitImage(i) =>
        DifferBefore(u, v, u, v, t.inits[i].name);
        DifferInInit(t, i, t.inits[i].(image := v), u, v);
      case InitName(i) =>
        DifferAfter(t.inits[i].image, u, v, u, v);
        DifferInInit(t, i, t.inits[i].(name := v), u, v);
      case VolumeName(i) =>
        var volume := t.volumes[i].(name := v);
        var before := Concat(ContainerBytes, t.containers) + Concat(InitBytes, t.inits);
        DifferInList(VolumeBytes, t.volumes, i, volume, u, v);
        DifferAfter(before, Concat(VolumeBytes, t.volumes), Concat(VolumeBytes, t.volumes[i := volume]), u, v);
    }
  }

  /** Changing one string anywhere changes the bytes, for templates of any size. */
  lemma OneChangeIsSeen(t: PodTemplate, s: Site, v: string)
    requires Within(t, s)
    ensures Bytes(Edited(t, s, v)) == Bytes(t) <==> v == At(t, s)
  {
    EditDiffers(t, s, v);
    DifferIff(Bytes(t), Bytes(Edited(t, s, v)), At(t, s), v);
  }

  /** So does appending an init container, as one more init plugin does: its name is never empty. */
  lemma OneMoreInitIsSeen(t: PodTemplate, c: Container)
    requires c.name != []
    ensures |Bytes(t.(inits := t.inits + [c]))| > |Bytes(t)|
  {
    ConcatAppend(InitBytes, t.inits, [c]);
    ConcatOne(InitBytes, c);
  }

  lemma {:induction false} FedAlike<T>(f: T -> string, xs: seq<T>, ys: seq<T>)
    requires |xs| == |ys| && forall i :: 0 <= i < |xs| ==> f(xs[i]) == f(ys[i])
    ensures Concat(f, xs) == Concat(f, ys)
  {
    if xs != [] {
      FedAlike(f, xs[1..], ys[1..]);
    }
  }

  /** The bytes are a function of images, names, environments and volume names alone: two templates that
      agree on these are hashed alike, whatever their mounts, claims and init environments. */
  lemma OnlyFedFieldsMatter(t: PodTemplate, u: PodTemplate)
    requires |t.containers| == |u.containers| && |t.inits| == |u.inits| && |t.volumes| == |u.volumes|
    requires forall i :: 0 <= i < |t.containers| ==>
               t.containers[i].image == u.containers[i].image && t.containers[i].name == u.containers[i].name
               && t.containers[i].env == u.containers[i].env
    requires forall i :: 0 <= i < |t.inits| ==> t.inits[i].image == u.inits[i].image && t.inits[i].name == u.inits[i].name
    requires forall i :: 0 <= i < |t.volumes| ==> t.volumes[i].name == u.volumes[i].name
    ensures Bytes(t) == Bytes(u)
  {
    FedAlike(ContainerBytes, t.containers, u.containers);
    FedAlike(InitBytes, t.inits, u.inits);
    FedAlike(VolumeBytes, t.volumes, u.volumes);
  }

  /** A changed claim name behind the storage volume goes unnoticed by every digest. */
  lemma ClaimNameIsNotSeen(sha: string -> string, t: PodTemplate, i: nat, claim: string)
    requires i < |t.volumes|
    ensures sha(Bytes(t.(volumes := t.volumes[i := t.volumes[i].(claim := claim)]))) == sha(Bytes(t))
  {
    OnlyFedFieldsMatter(t.(volumes := t.volumes[i := t.volumes[i].(claim := claim)]), t);
  }

  /** The encoding has no separators: two different strings can trade a boundary. */
  lemma NotInjective()
    ensures exists t, u :: t != u && Bytes(t) == Bytes(u)
  {
    var c, d := Container("b", "a", [], []), Container("", "ab", [], []);
    var t, u := PodTemplate([c], [], []), PodTemplate([d], [], []);
    ConcatOne(ContainerBytes, c);
    ConcatOne(ContainerBytes, d);
    assert c.image + c.name == d.image + d.name;
    assert t != u && Bytes(t) == Bytes(u);
  }
}

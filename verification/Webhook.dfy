/** internal/webhook/podflox.go: what admission does to a pod. */
module Webhook {
  import opened FloxApi
  import opened EnvRefs

  const NIX_BUILD_PREFIX := "flox.seedmatic.io/nix-build."
  const NIX_STORE_MOUNT := "/var/lib/flox-nri/nix-build-store"
  const NIX_CONFIG_VALUE := "experimental-features = nix-command flakes\naccept-flake-config = true\nbuild-users-group =\nsandbox = false\nmin-free = 5368709120\nmax-free = 10737418240"

  datatype SecretRef = SecretRef(name: string, key: string, optional: Option<bool>)

  datatype Source = Literal(value: string) | FromSecret(secret: SecretRef) | OtherSource(id: int)

  datatype EnvVar = EnvVar(name: string, source: Source)

  datatype VolumeMount = VolumeMount(name: string, path: string)

  datatype Volume = Volume(name: string, source: VolumeSource)

  datatype VolumeSource = Claim(claim: string) | OtherVolume(id: int)

  datatype Container = Container(name: string, env: seq<EnvVar>, mounts: seq<VolumeMount>)

  datatype InjectedEnv = InjectedEnv(name: string, value: string, secret: Option<SecretRef>)

  /** What admission reads of the cluster: whether it has a client and a namespace to read FloxEnvs from,
      the spec.inject of the FloxEnvs it can get there by name, and the claims whose creation fails. */
  datatype World = World(client: bool, namespace: string, injects: map<string, seq<InjectedEnv>>, claimFails: string -> bool)

  // ---------- env vars: a left-biased merge ----------

  function Names(env: seq<EnvVar>): set<string> {
    set v | v in env :: v.name
  }

  function Upsert(env: seq<EnvVar>, v: EnvVar): seq<EnvVar> {
    if v.name in Names(env) then env else env + [v]
  }

  function UpsertAll(env: seq<EnvVar>, vars: seq<EnvVar>): seq<EnvVar> {
    if vars == [] then env else Upsert(UpsertAll(env, vars[..|vars| - 1]), vars[|vars| - 1])
  }

  /** vars[i] is the first of its name and the container does not set that name. */
  predicate IsNew(env: seq<EnvVar>, vars: seq<EnvVar>, i: nat)
    requires i < |vars|
  {
    vars[i].name !in Names(env) && forall j :: 0 <= j < i ==> vars[j].name != vars[i].name
  }

  /** The new ones among the first `count`, in order. */
  function NewOnes(env: seq<EnvVar>, vars: seq<EnvVar>, count: nat): seq<EnvVar>
    requires count <= |vars|
  {
    if count == 0 then []
    else NewOnes(env, vars, count - 1) + if IsNew(env, vars, count - 1) then [vars[count - 1]] else []
  }

  /** Upserting a list keeps the container's own list as a prefix and appends exactly the first occurrence
      of every name it does not set. */
  lemma {:induction false} UpsertAllIsLeftBiasedMerge(env: seq<EnvVar>, vars: seq<EnvVar>, count: nat)
    requires count <= |vars|
    ensures UpsertAll(env, vars[..count]) == env + NewOnes(env, vars, count)
    ensures forall n :: n in Names(UpsertAll(env, vars[..count])) <==> n in Names(env) || exists j :: 0 <= j < count && vars[j].name == n
  {
    if count > 0 {
      UpsertAllIsLeftBiasedMerge(env, vars, count - 1);
      assert vars[..count][..count - 1] == vars[..count - 1];
      var before := UpsertAll(env, vars[..count - 1]);
      NamesOfAppend(before, vars[count - 1]);
    }
  }

  lemma NamesOfAppend(env: seq<EnvVar>, v: EnvVar)
    ensures Names(env + [v]) == Names(env) + {v.name}
  {
  }

  /** Upserting what is already there changes nothing, so doing it twice is doing it once. */
  lemma {:induction false} UpsertAllPresent(env: seq<EnvVar>, vars: seq<EnvVar>)
    requires forall i :: 0 <= i < |vars| ==> vars[i].name in Names(env)
    ensures UpsertAll(env, vars) == env
  {
    if vars != [] {
      UpsertAllPresent(env, vars[..|vars| - 1]);
    }
  }

  lemma {:induction false} UpsertAllOfConcatenation(env: seq<EnvVar>, a: seq<EnvVar>, b: seq<EnvVar>)
    ensures UpsertAll(env, a + b) == UpsertAll(UpsertAll(env, a), b)
  {
    if b == [] {
      assert a + b == a;
    } else {
      assert (a + b)[..|a + b| - 1] == a + b[..|b| - 1];
      UpsertAllOfConcatenation(env, a, b[..|b| - 1]);
    }
  }

  // ---------- what a container is given ----------

  function Settings(): seq<EnvVar> {
    [EnvVar("_FLOX_TESTING_DISABLE_BG_SIDE_EFFECTS", Literal("true")),
     EnvVar("FLOX_DISABLE_METRICS", Literal("true")),
     EnvVar("FLOX_NO_TELEMETRY", Literal("1")),
     EnvVar("FLOX_NONINTERACTIVE", Literal("1"))]
  }

  const NIX_CONFIG := EnvVar("NIX_CONFIG", Literal(NIX_CONFIG_VALUE))

  function InjectedEnvVar(inj: InjectedEnv): EnvVar {
    EnvVar(inj.name, if inj.secret.Some? then FromSecret(inj.secret.value) else Literal(inj.value))
  }

  /** The non-empty value an annotation with this prefix has for the container. */
  function AnnotationFor(annotations: Annotations, prefix: string, container: string): Option<string> {
    if prefix + container in annotations && annotations[prefix + container] != ""
    then Some(annotations[prefix + container]) else None
  }

  /** The FloxEnv a container opted into, by name. */
  function EnvOf(annotations: Annotations, container: string): Option<string> {
    match AnnotationFor(annotations, ANNOTATION_PREFIX, container)
    case Some(value) => Some(EnvName(value))
    case None => None
  }

  /** The claim a container assigned as its nix store. */
  function ClaimOf(annotations: Annotations, container: string): Option<string> {
    AnnotationFor(annotations, NIX_BUILD_PREFIX, container)
  }

  function InjectsOf(w: World, name: string): seq<EnvVar> {
    if !w.client || w.namespace == "" || name !in w.injects then []
    else seq(|w.injects[name]|, i requires 0 <= i < |w.injects[name]| => InjectedEnvVar(w.injects[name][i]))
  }

  function FloxVars(w: World, annotations: Annotations, container: string): seq<EnvVar> {
    match EnvOf(annotations, container)
    case Some(name) => Settings() + InjectsOf(w, name)
    case None => []
  }

  function NixVars(annotations: Annotations, container: string): seq<EnvVar> {
    if ClaimOf(annotations, container).Some? then [NIX_CONFIG] else []
  }

  function Mounted(mounts: seq<VolumeMount>, claim: Option<string>): seq<VolumeMount> {
    if claim.Some? && forall m :: m in mounts ==> m.name != claim.value
    then mounts + [VolumeMount(claim.value, NIX_STORE_MOUNT)] else mounts
  }

  function WithFlox(w: World, annotations: Annotations, c: Container): Container {
    c.(env := UpsertAll(c.env, FloxVars(w, annotations, c.name)))
  }

  function EachWithFlox(w: World, annotations: Annotations, cs: seq<Container>): seq<Container> {
    if cs == [] then [] else EachWithFlox(w, annotations, cs[..|cs| - 1]) + [WithFlox(w, annotations, cs[|cs| - 1])]
  }

  lemma {:induction false} EachWithFloxAt(w: World, annotations: Annotations, cs: seq<Container>)
    ensures |EachWithFlox(w, annotations, cs)| == |cs|
    ensures forall i :: 0 <= i < |cs| ==> EachWithFlox(w, annotations, cs)[i] == WithFlox(w, annotations, cs[i])
  {
    if cs != [] { EachWithFloxAt(w, annotations, cs[..|cs| - 1]); }
  }

  function WithNix(annotations: Annotations, c: Container): Container {
    c.(env := UpsertAll(c.env, NixVars(annotations, c.name)), mounts := Mounted(c.mounts, ClaimOf(annotations, c.name)))
  }

  function Defaulted(w: World, annotations: Annotations, c: Container): Container {
    WithNix(annotations, WithFlox(w, annotations, c))
  }

  /** A container's env after admission: its own list first, then the first occurrence of each name it
      does not set among the settings, its env's injects and NIX_CONFIG. A container no annotation names
      is untouched. */
  lemma DefaultedEnv(w: World, annotations: Annotations, c: Container)
    ensures var vars := FloxVars(w, annotations, c.name) + NixVars(annotations, c.name);
      Defaulted(w, annotations, c).env == c.env + NewOnes(c.env, vars, |vars|)
    ensures EnvOf(annotations, c.name).None? && ClaimOf(annotations, c.name).None? ==> Defaulted(w, annotations, c) == c
    ensures Defaulted(w, annotations, c).name == c.name
  {
    var a, b := FloxVars(w, annotations, c.name), NixVars(annotations, c.name);
    UpsertAllOfConcatenation(c.env, a, b);
    UpsertAllIsLeftBiasedMerge(c.env, a + b, |a + b|);
    assert (a + b)[..|a + b|] == a + b;
  }

  /** A variable as spec.inject declares it: its value, or the secret it comes from. */
  predicate Declares(inj: InjectedEnv, v: EnvVar) {
    v.name == inj.name && v.source == match inj.secret { case None => Literal(inj.value) case Some(secret) => FromSecret(secret) }
  }

  /** What a container is given whose annotation names "<folder>/<name>": four settings, then what that env
      declares, if it can be read. */
  lemma OptedInReads(w: World, annotations: Annotations, container: string, folder: string, name: string)
    requires '/' !in name
    requires var k := "flox.seedmatic.io/environment." + container; k in annotations && annotations[k] == folder + "/" + name
    ensures var vars := FloxVars(w, annotations, container);
      && |vars| == 4 + (if w.client && w.namespace != "" && name in w.injects then |w.injects[name]| else 0)
      && vars[..4] == [EnvVar("_FLOX_TESTING_DISABLE_BG_SIDE_EFFECTS", Literal("true")), EnvVar("FLOX_DISABLE_METRICS", Literal("true")),
                       EnvVar("FLOX_NO_TELEMETRY", Literal("1")), EnvVar("FLOX_NONINTERACTIVE", Literal("1"))]
      && forall i :: 0 <= i < |vars| - 4 ==> name in w.injects && Declares(w.injects[name][i], vars[4 + i])
  {
    RefRoundTrip(EnvRef(folder, name), folder + "/" + name);
    SplitAtLast(folder, name);
    assert EnvOf(annotations, container) == Some(name);
    assert Settings() + InjectsOf(w, name) == FloxVars(w, annotations, container);
    assert (Settings() + InjectsOf(w, name))[..4] == Settings();
  }

  /** A container nothing names is given nothing; one with a claim gets NIX_CONFIG and one mount of it. */
  lemma ClaimReads(annotations: Annotations, c: Container)
    ensures var k := "flox.seedmatic.io/environment." + c.name;
      (k in annotations ==> annotations[k] == "") <==> EnvOf(annotations, c.name).None?
    ensures var k := "flox.seedmatic.io/nix-build." + c.name; var after := WithNix(annotations, c);
      if k !in annotations || annotations[k] == "" then after == c
      else
        && after.env == (if exists v :: v in c.env && v.name == "NIX_CONFIG" then c.env
                         else c.env + [EnvVar("NIX_CONFIG", Literal(NIX_CONFIG_VALUE))])
        && after.mounts == (if exists m :: m in c.mounts && m.name == annotations[k] then c.mounts
                            else c.mounts + [VolumeMount(annotations[k], "/var/lib/flox-nri/nix-build-store")])
  {
    assert UpsertAll(c.env, []) == c.env;
    assert UpsertAll(c.env, [NIX_CONFIG]) == Upsert(c.env, NIX_CONFIG) by { assert [NIX_CONFIG][..0] == []; }
  }

  lemma UpsertedTwice(env: seq<EnvVar>, a: seq<EnvVar>, b: seq<EnvVar>)
    ensures var once := UpsertAll(UpsertAll(env, a), b); UpsertAll(once, a) == once && UpsertAll(once, b) == once
  {
    var once := UpsertAll(UpsertAll(env, a), b);
    UpsertAllOfConcatenation(env, a, b);
    UpsertAllIsLeftBiasedMerge(env, a + b, |a + b|);
    assert (a + b)[..|a + b|] == a + b;
    forall i | 0 <= i < |a| ensures a[i].name in Names(once) { assert (a + b)[i] == a[i]; }
    forall i | 0 <= i < |b| ensures b[i].name in Names(once) { assert (a + b)[|a| + i] == b[i]; }
    UpsertAllPresent(once, a);
    UpsertAllPresent(once, b);
  }

  lemma DefaultedTwice(w: World, annotations: Annotations, c: Container)
    ensures Defaulted(w, annotations, Defaulted(w, annotations, c)) == Defaulted(w, annotations, c)
  {
    UpsertedTwice(c.env, FloxVars(w, annotations, c.name), NixVars(annotations, c.name));
  }

  // ---------- the pod ----------

  /** The claims the pod's annotations assign, whether or not a container of that name exists. */
  function Claims(annotations: Annotations): set<string> {
    set k | k in annotations && HasPrefix(k, NIX_BUILD_PREFIX) && annotations[k] != "" :: annotations[k]
  }

  /** The claims as the annotations are written. */
  lemma ClaimsRead(annotations: Annotations, claim: string)
    ensures claim in Claims(annotations) <==>
            claim != "" && exists k :: k in annotations && "flox.seedmatic.io/nix-build." <= k && annotations[k] == claim
  {
  }

  predicate HasVolume(volumes: seq<Volume>, name: string) {
    exists v :: v in volumes && v.name == name
  }

  lemma HasVolumeOfPrefix(before: seq<Volume>, after: seq<Volume>, name: string)
    requires before <= after
    ensures HasVolume(before, name) ==> HasVolume(after, name)
  {
  }

  function GatesAfter(annotations: Annotations, nodeName: string, gates: seq<string>): seq<string> {
    if RefSet(annotations) == {} || nodeName != "" || SCHEDULING_GATE in gates then gates else gates + [SCHEDULING_GATE]
  }

  /** One volume is appended for each claim that had none, in an arbitrary order. */
  ghost predicate VolumesAfter(annotations: Annotations, before: seq<Volume>, after: seq<Volume>) {
    && before <= after
    && (forall i :: |before| <= i < |after| ==>
          after[i] == Volume(after[i].name, Claim(after[i].name)) && after[i].name in Claims(annotations) && !HasVolume(before, after[i].name))
    && (forall i, j :: |before| <= i < j < |after| ==> after[i].name != after[j].name)
    && (forall name :: name in Claims(annotations) ==> HasVolume(after, name))
  }

  /** A pod as admission sees it. */
  datatype Snapshot = Snapshot(
    annotations: Annotations, nodeName: string, gates: seq<string>, volumes: seq<Volume>,
    initContainers: seq<Container>, containers: seq<Container>)

  ghost predicate EachDefaulted(w: World, annotations: Annotations, before: seq<Container>, after: seq<Container>) {
    |after| == |before| && forall i :: 0 <= i < |before| ==> after[i] == Defaulted(w, annotations, before[i])
  }

  ghost predicate DefaultMakes(w: World, p: Snapshot, q: Snapshot) {
    && q.annotations == p.annotations && q.nodeName == p.nodeName
    && q.gates == GatesAfter(p.annotations, p.nodeName, p.gates)
    && VolumesAfter(p.annotations, p.volumes, q.volumes)
    && EachDefaulted(w, p.annotations, p.initContainers, q.initContainers)
    && EachDefaulted(w, p.annotations, p.containers, q.containers)
  }

  /** Admitting an admitted pod again, with the cluster unchanged, changes nothing. */
  lemma DefaultIsIdempotent(w: World, p: Snapshot, q: Snapshot, r: Snapshot)
    requires DefaultMakes(w, p, q) && DefaultMakes(w, q, r)
    ensures r == q
  {
    assert |r.volumes| > |q.volumes| ==> r.volumes[|q.volumes|].name in Claims(p.annotations);
    assert r.volumes == q.volumes;
    assert r.initContainers == q.initContainers by {
      forall i | 0 <= i < |q.initContainers| ensures r.initContainers[i] == q.initContainers[i] {
        DefaultedTwice(w, p.annotations, p.initContainers[i]);
      }
    }
    assert r.containers == q.containers by {
      forall i | 0 <= i < |q.containers| ensures r.containers[i] == q.containers[i] {
        DefaultedTwice(w, p.annotations, p.containers[i]);
      }
    }
  }

  /** The barrier: a pod that opts into an env and is not bound leaves admission gated; admission never
      gates a bound pod, and never adds a second gate. */
  lemma AdmissionGates(annotations: Annotations, nodeName: string, gates: seq<string>)
    ensures var after := GatesAfter(annotations, nodeName, gates);
      && (RefSet(annotations) != {} && nodeName == "" ==> "flox.seedmatic.io/env-ready" in after && multiset(after)[SCHEDULING_GATE] >= 1)
      && (nodeName != "" || RefSet(annotations) == {} ==> after == gates)
      && (multiset(gates)[SCHEDULING_GATE] <= 1 ==> multiset(after)[SCHEDULING_GATE] <= 1)
      && (forall g :: g != SCHEDULING_GATE ==> multiset(after)[g] == multiset(gates)[g])
  {
  }

  class PodFloxMutator {
    const annotations: Annotations
    const nodeName: string
    var gates: seq<string>
    var volumes: seq<Volume>
    const initContainers: array<Container>
    const containers: array<Container>

    ghost predicate Valid() {
      initContainers != containers
    }

    ghost function Pod(): Snapshot
      reads this, initContainers, containers
    {
      Snapshot(annotations, nodeName, gates, volumes, initContainers[..], containers[..])
    }

    constructor (annotations: Annotations, nodeName: string, gates: seq<string>, volumes: seq<Volume>,
                 initContainers: array<Container>, containers: array<Container>)
      requires initContainers != containers
      ensures Valid() && this.initContainers == initContainers && this.containers == containers
      ensures Pod() == Snapshot(annotations, nodeName, gates, volumes, initContainers[..], containers[..])
    {
      this.annotations, this.nodeName, this.gates, this.volumes := annotations, nodeName, gates, volumes;
      this.initContainers, this.containers := initContainers, containers;
    }

    /** Default: the env concern, then the nix-build concern, which fails when a claim cannot be ensured. */
    method Default(w: World) returns (ok: bool)
      requires Valid()
      modifies this, initContainers, containers
      ensures ok ==> DefaultMakes(w, old(Pod()), Pod())
      ensures ok <==> !w.client || forall name :: name in Claims(annotations) ==> !w.claimFails(name)
      ensures gates == GatesAfter(annotations, nodeName, old(gates))
    {
      InjectFloxWait(w);
      ok := InjectNixBuild(w);
    }

    method InjectFloxWait(w: World)
      requires Valid()
      modifies this`gates, initContainers, containers
      ensures gates == GatesAfter(annotations, nodeName, old(gates))
      ensures forall i :: 0 <= i < initContainers.Length ==> initContainers[i] == WithFlox(w, annotations, old(initContainers[i]))
      ensures forall i :: 0 <= i < containers.Length ==> containers[i] == WithFlox(w, annotations, old(containers[i]))
    {
      var refs := RefsFromAnnotations(annotations);
      if |refs| == 0 {
        NoRefsNoEnv();
        return;
      }
      assert refs[0] in RefSet(annotations);
      InjectFloxEnv(w);
      if nodeName != "" {
        return;
      }
      for i := 0 to |gates|
        invariant SCHEDULING_GATE !in gates[..i] && gates == old(gates)
      {
        if gates[i] == SCHEDULING_GATE {
          return;
        }
      }
      gates := gates + [SCHEDULING_GATE];
    }

    lemma NoRefsNoEnv()
      ensures RefSet(annotations) == {} ==> forall name :: EnvOf(annotations, name).None?
    {
      forall name | EnvOf(annotations, name).Some? ensures RefSet(annotations) != {} {
        var k := ANNOTATION_PREFIX + name;
        assert OptsIn(k, annotations[k]);
        assert ParseRef(annotations[k]) in RefSet(annotations);
      }
    }

    method InjectFloxEnv(w: World)
      requires Valid()
      modifies initContainers, containers
      ensures forall i :: 0 <= i < initContainers.Length ==> initContainers[i] == WithFlox(w, annotations, old(initContainers[i]))
      ensures forall i :: 0 <= i < containers.Length ==> containers[i] == WithFlox(w, annotations, old(containers[i]))
    {
      var envOf: map<string, string> := map[];
      var todo := annotations.Keys;
      while todo != {}
        invariant todo <= annotations.Keys
        invariant forall name :: name in envOf <==> EnvOf(annotations, name).Some? && ANNOTATION_PREFIX + name !in todo
        invariant forall name :: name in envOf ==> envOf[name] == EnvOf(annotations, name).value
        decreases todo
      {
        var k :| k in todo;
        if HasPrefix(k, ANNOTATION_PREFIX) && annotations[k] != "" {
          var name := TrimPrefix(k, ANNOTATION_PREFIX);
          assert k == ANNOTATION_PREFIX + name;
          envOf := envOf[name := EnvName(annotations[k])];
        }
        ghost var before := todo;
        todo := todo - {k};
        forall name | ANNOTATION_PREFIX + name == k ensures TrimPrefix(k, ANNOTATION_PREFIX) == name {
        }
      }
      InjectInto(w, initContainers, envOf);
      InjectInto(w, containers, envOf);
    }

    method InjectInto(w: World, list: array<Container>, envOf: map<string, string>)
      requires IsEnvOf(envOf)
      modifies list
      ensures forall i :: 0 <= i < list.Length ==> list[i] == WithFlox(w, annotations, old(list[i]))
    {
      ghost var before := list[..];
      for idx := 0 to list.Length
        invariant list[..idx] == EachWithFlox(w, annotations, before[..idx])
        invariant list[idx..] == before[idx..]
      {
        assert list[idx] == list[idx..][0] == before[idx];
        ghost var rest := list[idx + 1..];
        list[idx] := InjectFloxEnvInto(w, list[idx], envOf);
        assert before[..idx + 1][..idx] == before[..idx];
        assert list[..idx + 1] == list[..idx] + [list[idx]];
        assert list[idx + 1..] == rest == before[idx..][1..];
      }
      assert before[..list.Length] == before && list[..list.Length] == list[..];
      EachWithFloxAt(w, annotations, before);
    }

    ghost predicate IsEnvOf(envOf: map<string, string>) {
      && (forall name :: name in envOf <==> EnvOf(annotations, name).Some?)
      && (forall name :: name in envOf ==> envOf[name] == EnvOf(annotations, name).value)
    }

    /** injectFloxEnvInto, with the lookup resolveInjects made for the container's env. */
    method InjectFloxEnvInto(w: World, c: Container, envOf: map<string, string>) returns (out: Container)
      requires IsEnvOf(envOf)
      ensures out == WithFlox(w, annotations, c)
    {
      if c.name !in envOf {
        assert UpsertAll(c.env, []) == c.env;
        return c;
      }
      var env := InjectFor(w, c.env, envOf[c.name]);
      out := Container(c.name, env, c.mounts);
    }

    /** The settings, then the env's own contributions. */
    static method InjectFor(w: World, env: seq<EnvVar>, name: string) returns (out: seq<EnvVar>)
      ensures out == UpsertAll(env, Settings() + InjectsOf(w, name))
    {
      var withSettings := UpsertEach(env, Settings());
      out := UpsertEach(withSettings, InjectsOf(w, name));
      UpsertAllOfConcatenation(env, Settings(), InjectsOf(w, name));
    }

    static method UpsertEach(env: seq<EnvVar>, vars: seq<EnvVar>) returns (out: seq<EnvVar>)
      ensures out == UpsertAll(env, vars)
    {
      out := env;
      for i := 0 to |vars|
        invariant out == UpsertAll(env, vars[..i])
      {
        assert vars[..i + 1][..i] == vars[..i];
        var present := false;
        for j := 0 to |out|
          invariant present <==> exists v :: v in out[..j] && v.name == vars[i].name
        {
          assert out[..j + 1] == out[..j] + [out[j]];
          if out[j].name == vars[i].name { present := true; }
        }
        assert out[..|out|] == out;
        if !present {
          out := out + [vars[i]];
        }
      }
      assert vars[..|vars|] == vars;
    }

    method InjectNixBuild(w: World) returns (ok: bool)
      requires Valid()
      modifies this`volumes, initContainers, containers
      ensures ok <==> !w.client || forall name :: name in Claims(annotations) ==> !w.claimFails(name)
      ensures ok ==> VolumesAfter(annotations, old(volumes), volumes)
      ensures ok ==> forall i :: 0 <= i < initContainers.Length ==> initContainers[i] == WithNix(annotations, old(initContainers[i]))
      ensures ok ==> forall i :: 0 <= i < containers.Length ==> containers[i] == WithNix(annotations, old(containers[i]))
    {
      ok := EnsureVolumes(w);
      if ok {
        MountInto(initContainers);
        MountInto(containers);
      }
    }

    /** Each distinct claim is ensured and gets one volume; the first failure ends the admission. */
    method EnsureVolumes(w: World) returns (ok: bool)
      modifies this`volumes
      ensures ok <==> !w.client || forall name :: name in Claims(annotations) ==> !w.claimFails(name)
      ensures ok ==> VolumesAfter(annotations, old(volumes), volumes)
    {
      var todo := Claims(annotations);
      while todo != {}
        invariant todo <= Claims(annotations)
        invariant forall name :: w.client && name in Claims(annotations) && name !in todo ==> !w.claimFails(name)
        invariant old(volumes) <= volumes
        invariant forall i :: |old(volumes)| <= i < |volumes| ==>
                    && volumes[i] == Volume(volumes[i].name, Claim(volumes[i].name))
                    && volumes[i].name in Claims(annotations) - todo && !HasVolume(old(volumes), volumes[i].name)
        invariant forall i, j :: |old(volumes)| <= i < j < |volumes| ==> volumes[i].name != volumes[j].name
        invariant forall name :: name in Claims(annotations) - todo ==> HasVolume(volumes, name)
        decreases todo
      {
        var name :| name in todo;
        if w.client && w.claimFails(name) {
          return false;
        }
        todo := todo - {name};
        var present := VolumePresent(name);
        ghost var before := volumes;
        if !present {
          HasVolumeOfPrefix(old(volumes), volumes, name);
          volumes := volumes + [Volume(name, Claim(name))];
          assert volumes[|before|] in volumes;
        }
        assert HasVolume(volumes, name);
        forall other | other in Claims(annotations) - todo ensures HasVolume(volumes, other) {
          if other != name { HasVolumeOfPrefix(before, volumes, other); }
        }
      }
      ok := true;
    }

    method VolumePresent(name: string) returns (present: bool)
      ensures present <==> HasVolume(volumes, name)
    {
      for i := 0 to |volumes|
        invariant forall j :: 0 <= j < i ==> volumes[j].name != name
      {
        if volumes[i].name == name {
          return true;
        }
      }
      return false;
    }

    /** mountNixStore for every container of a list that has a claim. */
    method MountInto(list: array<Container>)
      modifies list
      ensures forall i :: 0 <= i < list.Length ==> list[i] == WithNix(annotations, old(list[i]))
    {
      for idx := 0 to list.Length
        invariant forall i :: 0 <= i < idx ==> list[i] == WithNix(annotations, old(list[i]))
        invariant forall i :: idx <= i < list.Length ==> list[i] == old(list[i])
      {
        var c := list[idx];
        var claim := ClaimOf(annotations, c.name);
        if claim.Some? {
          var present := false;
          for j := 0 to |c.mounts|
            invariant present <==> exists m :: m in c.mounts[..j] && m.name == claim.value
          {
            assert c.mounts[..j + 1] == c.mounts[..j] + [c.mounts[j]];
            if c.mounts[j].name == claim.value { present := true; }
          }
          assert c.mounts[..|c.mounts|] == c.mounts;
          var env := UpsertEach(c.env, [NIX_CONFIG]);
          list[idx] := Container(c.name, env, if present then c.mounts else c.mounts + [VolumeMount(claim.value, NIX_STORE_MOUNT)]);
        }
      }
    }
  }
}

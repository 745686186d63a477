/** The loop the controller's two reconcilers form, with its queues: catalogs of one namespace are queued by
    readiness moves of its envs, a pass stamps the catalog's revision on every listed env, a stamp queues the
    env for the agent, and the agent's builds move readiness again
    (internal/controller/floxcatalog_controller.go, internal/controller/floxenv_controller.go). */
module CatalogLoop {
  import opened FloxApi
  import opened EnvMachine
  import opened FlakeInstalls
  import opened Relock
  import opened Quiescence
  import CatalogRollup
  import ConsumerRolls
  import EnvReconcile

  /** The catalogs of a namespace, by name, each with the revision it resolved to; and what decides whether a
      manifest of the namespace gets through: its decoding, what Gets of catalogs return, its encoding. */
  datatype Setup = Setup(
    ns: string, revisions: map<string, string>,
    decodes: EnvSpec -> bool, catalogs: Key -> CatalogRead, encodes: Manifest -> bool)

  /** An env as a pass listed it. */
  datatype Listed = Listed(key: Key, relock: string)

  /** `queue`: the catalogs' keys; `passing`: what the pass of a catalog has still to visit. */
  datatype System = System(cluster: State, queue: set<string>, passing: map<string, seq<Listed>>)

  datatype Move =
    | OfAgents(step: Label)
    | Begin(catalog: string, listing: seq<Listed>)
    | StampNext(catalog: string, accepted: bool)
    | End(catalog: string)

  predicate Distinct(listing: seq<Listed>) {
    forall i, j :: 0 <= i < j < |listing| ==> listing[i].key != listing[j].key
  }

  /** A List of the namespace, in any order. */
  ghost predicate ListsEnvs(ns: string, s: State, listing: seq<Listed>) {
    && Distinct(listing)
    && (forall x :: x in listing ==> x.key in s.envs && x.key.ns == ns && x.relock == Current(s.envs[x.key]).relock)
    && (forall k :: k in s.envs && k.ns == ns ==> Listed(k, Current(s.envs[k]).relock) in listing)
  }

  ghost predicate Enabled(c: Config, setup: Setup, s: System, m: Move) {
    match m
    case OfAgents(l) => !(l.EditRelock? && l.key.ns == setup.ns) && EnvMachine.Enabled(c, s.cluster, l)
    case Begin(catalog, listing) =>
      && catalog in setup.revisions && catalog in s.queue && catalog !in s.passing
      && ListsEnvs(setup.ns, s.cluster, listing)
    case StampNext(catalog, _) =>
      && catalog in setup.revisions && catalog in s.passing && s.passing[catalog] != []
      && s.passing[catalog][0].key in s.cluster.envs
    case End(catalog) => catalog in s.passing && s.passing[catalog] == []
  }

  /** A listed env is patched unless it carried the revision, or there is none. */
  predicate Patches(x: Listed, revision: string) { revision != "" && x.relock != revision }

  /** The step of the agents' system a move makes. A patch of an annotation that has the value by now stores nothing. */
  ghost function LabelOf(c: Config, setup: Setup, s: System, m: Move): (l: Option<Label>)
    requires Enabled(c, setup, s, m)
    ensures l.Some? ==> EnvMachine.Enabled(c, s.cluster, l.value)
  {
    match m
    case OfAgents(l) => Some(l)
    case StampNext(catalog, accepted) =>
      var x, revision := s.passing[catalog][0], setup.revisions[catalog];
      if Patches(x, revision) && accepted && Current(s.cluster.envs[x.key]).relock != revision
      then Some(EditRelock(x.key, revision)) else None
    case _ => None
  }

  /** envReadinessChange and catalogsForEnv: a creation or a move of readiness queues every catalog. */
  ghost predicate Wakes(ns: string, s: State, t: State) {
    exists k :: k in t.envs && k.ns == ns && (k in s.envs ==> CatalogRollup.Passes(Current(s.envs[k]), Current(t.envs[k])))
  }

  ghost function Woken(setup: Setup, s: State, t: State): set<string> {
    if Wakes(setup.ns, s, t) then setup.revisions.Keys else {}
  }

  ghost function NextCluster(c: Config, setup: Setup, s: System, m: Move): State
    requires Enabled(c, setup, s, m)
  {
    var l := LabelOf(c, setup, s, m);
    if l.Some? then EnvMachine.Apply(c, s.cluster, l.value) else s.cluster
  }

  ghost function Apply(c: Config, setup: Setup, s: System, m: Move): System
    requires Enabled(c, setup, s, m)
  {
    var cluster := NextCluster(c, setup, s, m);
    match m
    case OfAgents(_) => System(cluster, s.queue + Woken(setup, s.cluster, cluster), s.passing)
    case Begin(catalog, listing) => System(cluster, s.queue - {catalog}, s.passing[catalog := listing])
    case StampNext(catalog, accepted) =>
      if Patches(s.passing[catalog][0], setup.revisions[catalog]) && !accepted
      then System(cluster, s.queue + {catalog}, s.passing - {catalog})
      else System(cluster, s.queue + Woken(setup, s.cluster, cluster), s.passing[catalog := s.passing[catalog][1..]])
    case End(catalog) => System(cluster, s.queue, s.passing - {catalog})
  }

  // ---------- what a manifest meets ----------

  /** The manifest decodes, resolves and encodes, so that only dependencies can hold the env. */
  ghost predicate GetsThrough(setup: Setup, spec: EnvSpec) {
    && setup.decodes(spec) && AllResolve(setup.ns, setup.catalogs, spec.manifest)
    && setup.encodes(EnvReconcile.WithSchemaVersion(ResolvedManifest(setup.ns, setup.catalogs, spec.manifest)))
  }

  /** FloxEnvReconciler.Reconcile may refuse the env for this reason: one of the obstacles the manifest has,
      whichever the install table is visited first at. */
  ghost predicate Refuses(setup: Setup, spec: EnvSpec, reason: string) {
    if setup.decodes(spec) && !AllResolve(setup.ns, setup.catalogs, spec.manifest)
    then EnvReconcile.Reports(reason, setup.ns, setup.catalogs, spec.manifest)
    else reason == SERIALIZE_FAILED && !GetsThrough(setup, spec)
  }

  /** Some entry waits for its catalog and another one fails. */
  ghost predicate TwoReasons(setup: Setup, spec: EnvSpec) {
    Refuses(setup, spec, WAITING_FOR_FLAKE) && Refuses(setup, spec, FLAKE_RESOLVE_FAILED)
  }

  /** The reasons for which the env may be held. */
  ghost function Reasons(setup: Setup, spec: EnvSpec): set<string> {
    if GetsThrough(setup, spec) then {WAITING_FOR_DEPS}
    else set reason | reason in {SERIALIZE_FAILED, FLAKE_RESOLVE_FAILED, WAITING_FOR_FLAKE} && Refuses(setup, spec, reason)
  }

  lemma ReasonsAreRefusals(setup: Setup, spec: EnvSpec, reason: string)
    ensures Refuses(setup, spec, reason) ==> !GetsThrough(setup, spec) && reason in Reasons(setup, spec)
    ensures GetsThrough(setup, spec) <==> !exists r :: Refuses(setup, spec, r)
  {
    var install := InstallTable(spec.manifest);
    if setup.decodes(spec) && !AllResolve(setup.ns, setup.catalogs, spec.manifest) {
      var id :| id in install && !ResolveEntry(setup.ns, setup.catalogs, install[id]).Keep?;
      assert ResolveEntry(setup.ns, setup.catalogs, install[id]) == Wait || ResolveEntry(setup.ns, setup.catalogs, install[id]).Fail?;
      assert Refuses(setup, spec, WAITING_FOR_FLAKE) || Refuses(setup, spec, FLAKE_RESOLVE_FAILED);
    } else {
      assert Refuses(setup, spec, SERIALIZE_FAILED) <==> !GetsThrough(setup, spec);
    }
  }

  /** This is what FloxEnvReconciler.Reconcile goes by: what it stores when it does not get through is a refusal
      for one of these reasons, and the refusal does not matter when it does. */
  lemma RefusesAsReconcileDoes(
    setup: Setup, node: string, envs: map<Key, FloxEnv>, workloads: ConsumerRolls.Workloads, key: Key,
    refusal: EnvReconcile.Refusal, w: EnvReconcile.World)
    requires key in envs && key.ns == setup.ns && envs[key].status.ready.Some? && !AlreadyRealized(node, envs[key])
    requires w.decodes == setup.decodes(envs[key].spec) && w.catalogs == setup.catalogs && w.encodes == setup.encodes
    requires w.decodes && !AllResolve(key.ns, w.catalogs, envs[key].spec.manifest) ==>
               EnvReconcile.Reports(refusal.reason, key.ns, w.catalogs, envs[key].spec.manifest)
    ensures var env := envs[key];
      if GetsThrough(setup, env.spec)
      then forall other ::
             EnvReconcile.AfterReconcile(node, envs, workloads, key, other, w)
             == EnvReconcile.AfterReconcile(node, envs, workloads, key, refusal, w)
      else exists reason ::
             Refuses(setup, env.spec, reason)
             && EnvReconcile.AfterReconcile(node, envs, workloads, key, refusal, w).envs
                == EnvReconcile.PatchStatus(envs, key, env.status, EnvReconcile.NotReady(env, reason, refusal.message), w.first)
  {
    var spec := envs[key].spec;
    if !GetsThrough(setup, spec) {
      var reason := if w.decodes && !AllResolve(key.ns, w.catalogs, spec.manifest) then refusal.reason else SERIALIZE_FAILED;
      assert Refuses(setup, spec, reason);
    }
  }

  /** An env has one reason at most to be held for, unless it has those two. */
  lemma OneReason(setup: Setup, spec: EnvSpec, a: string, b: string)
    requires a in Reasons(setup, spec) && b in Reasons(setup, spec) && !TwoReasons(setup, spec)
    ensures a == b
  {
  }

  /** Some stored version was Ready: a Get of a dependency may find it so. */
  predicate WasReady(h: History) { exists i :: 0 <= i < |h| && IsReady(h[i]) }

  predicate SeenReady(envs: map<Key, History>, key: Key) { key in envs && WasReady(envs[key]) }

  predicate DepsSeenReady(envs: map<Key, History>, key: Key, spec: EnvSpec) {
    forall name :: name in spec.dependsOn ==> SeenReady(envs, DepKey(key, name))
  }

  /** The env's manifest gets through, and its dependencies may be found Ready. */
  ghost predicate CanBuild(setup: Setup, s: State, key: Key)
    requires key in s.envs
  {
    var spec := Current(s.envs[key]).spec;
    GetsThrough(setup, spec) && DepsSeenReady(s.envs, key, spec)
  }

  // ---------- runs ----------

  /** The reconcile goes the way its manifest goes: it is refused for an obstacle it has, or gets through. */
  ghost predicate InStep(setup: Setup, s: State, id: TaskId, a: Action) {
    id in s.tasks ==>
      && (a.Refuse? ==> Refuses(setup, s.tasks[id].read.spec, a.reason))
      && (a.ManifestReady? ==> GetsThrough(setup, s.tasks[id].read.spec))
  }

  /** Nothing fails and nobody edits: the steps on envs of the namespace read stored objects and catalogs as
      they are, on fixed specs and a fixed set of envs, with no failed build, roll, commit and no crash. */
  ghost predicate SteadyStep(setup: Setup, s: State, l: Label) {
    match l
    case Create(key, _, _) => key.ns != setup.ns
    case EditSpec(key, _) => key.ns != setup.ns
    case Crash(_) => false
    case Agent(id, a) => id.key.ns == setup.ns ==> FreshReads()(s, l) && !Fails(a) && InStep(setup, s, id, a)
    case _ => true
  }

  ghost predicate SteadyMove(c: Config, setup: Setup, s: System, m: Move) {
    Enabled(c, setup, s, m) &&
    (LabelOf(c, setup, s, m).Some? ==> SteadyStep(setup, s.cluster, LabelOf(c, setup, s, m).value))
  }

  ghost predicate Runs(c: Config, setup: Setup, s: System, ms: seq<Move>, t: System)
    decreases |ms|
  {
    if ms == [] then s == t else SteadyMove(c, setup, s, ms[0]) && Runs(c, setup, Apply(c, setup, s, ms[0]), ms[1..], t)
  }

  /** The passes' patches are accepted. */
  predicate Accepted(ms: seq<Move>) {
    forall i :: 0 <= i < |ms| && ms[i].StampNext? ==> ms[i].accepted
  }

  /** How many moves of a run change the cluster in this way. */
  ghost function Count(c: Config, setup: Setup, p: (State, State) -> bool, s: System, ms: seq<Move>): nat
    decreases |ms|
  {
    if ms == [] || !Enabled(c, setup, s, ms[0]) then 0
    else
      var t := Apply(c, setup, s, ms[0]);
      (if p(s.cluster, t.cluster) then 1 else 0) + Count(c, setup, p, t, ms[1..])
  }

  ghost function WritesTo(): Key -> (State, State) -> bool {
    (k: Key) => (s: State, t: State) => EffectiveOn(s, t, k)
  }

  ghost function WritesIn(ns: string): (State, State) -> bool {
    (s: State, t: State) => exists k: Key :: k.ns == ns && EffectiveOn(s, t, k)
  }

  /** How many moves of a run write effectively to an env of the namespace. */
  ghost function EffectiveMoves(c: Config, setup: Setup, s: System, ms: seq<Move>): nat {
    Count(c, setup, WritesIn(setup.ns), s, ms)
  }

  ghost function KeysOf(ns: string, s: State): set<Key> { set k | k in s.envs && k.ns == ns }

  /** A move changes the cluster by the step it makes, if any. */
  lemma MoveIsStep(c: Config, setup: Setup, s: System, m: Move)
    requires Enabled(c, setup, s, m)
    ensures var l := LabelOf(c, setup, s, m);
      Apply(c, setup, s, m).cluster == if l.Some? then EnvMachine.Apply(c, s.cluster, l.value) else s.cluster
  {
  }

  lemma SteadyStepKeepsKeys(c: Config, setup: Setup, s: State, l: Label)
    requires EnvMachine.Enabled(c, s, l) && SteadyStep(setup, s, l)
    ensures KeysOf(setup.ns, EnvMachine.Apply(c, s, l)) == KeysOf(setup.ns, s)
  {
    StepGrows(c, s, l);
    forall k | k in EnvMachine.Apply(c, s, l).envs && k.ns == setup.ns ensures k in s.envs {
    }
  }

  lemma SteadyMoveKeepsKeys(c: Config, setup: Setup, s: System, m: Move)
    requires SteadyMove(c, setup, s, m)
    ensures KeysOf(setup.ns, Apply(c, setup, s, m).cluster) == KeysOf(setup.ns, s.cluster)
  {
    MoveIsStep(c, setup, s, m);
    var l := LabelOf(c, setup, s, m);
    if l.Some? { SteadyStepKeepsKeys(c, setup, s.cluster, l.value); }
  }

  /** The annotation of an env of the namespace is only ever set to the revision of some catalog. */
  lemma StampsAreRevisions(c: Config, setup: Setup, s: System, m: Move)
    requires SteadyMove(c, setup, s, m)
    ensures var l := LabelOf(c, setup, s, m);
      l.Some? && l.value.EditRelock? && l.value.key.ns == setup.ns ==>
        l.value.value != "" && exists name :: name in setup.revisions && setup.revisions[name] == l.value.value
  {
  }

  /** The rest of a pass will come to this env. */
  predicate Visits(todo: seq<Listed>, key: Key) { exists x :: x in todo && x.key == key }

  /** A stamp moves no readiness, so it wakes no catalog: envReadinessChange drops it. */
  lemma StampsWakeNobody(c: Config, setup: Setup, s: State, l: Label)
    requires EnvMachine.Enabled(c, s, l) && l.EditRelock?
    ensures Woken(setup, s, EnvMachine.Apply(c, s, l)) == {}
  {
    var t := EnvMachine.Apply(c, s, l);
    forall k | k in t.envs ensures k in s.envs && !CatalogRollup.Passes(Current(s.envs[k]), Current(t.envs[k])) {
    }
  }

  // ---------- adding up ----------

  ghost function Any(p: Key -> (State, State) -> bool, keys: set<Key>): (State, State) -> bool {
    (s: State, t: State) => exists k :: k in keys && p(k)(s, t)
  }

  lemma {:induction false} CountSplits(
    c: Config, setup: Setup, p: (State, State) -> bool, q: (State, State) -> bool, r: (State, State) -> bool, s: System, ms: seq<Move>)
    requires forall x, y :: p(x, y) ==> q(x, y) || r(x, y)
    ensures Count(c, setup, p, s, ms) <= Count(c, setup, q, s, ms) + Count(c, setup, r, s, ms)
    decreases |ms|
  {
    if ms != [] && Enabled(c, setup, s, ms[0]) {
      CountSplits(c, setup, p, q, r, Apply(c, setup, s, ms[0]), ms[1..]);
    }
  }

  lemma {:induction false} NothingCounts(c: Config, setup: Setup, p: (State, State) -> bool, s: System, ms: seq<Move>)
    requires forall x, y :: !p(x, y)
    ensures Count(c, setup, p, s, ms) == 0
    decreases |ms|
  {
    if ms != [] && Enabled(c, setup, s, ms[0]) {
      NothingCounts(c, setup, p, Apply(c, setup, s, ms[0]), ms[1..]);
    }
  }

  lemma AnySplits(p: Key -> (State, State) -> bool, keys: set<Key>, k: Key)
    ensures forall x, y :: Any(p, keys)(x, y) ==> p(k)(x, y) || Any(p, keys - {k})(x, y)
  {
    forall x, y | Any(p, keys)(x, y) && !p(k)(x, y) ensures Any(p, keys - {k})(x, y) {
      var j :| j in keys && p(j)(x, y);
      assert j in keys - {k};
    }
  }

  lemma {:induction false} CountOverKeys(
    c: Config, setup: Setup, p: Key -> (State, State) -> bool, keys: set<Key>, s: System, ms: seq<Move>, bound: nat)
    requires forall k :: k in keys ==> Count(c, setup, p(k), s, ms) <= bound
    ensures Count(c, setup, Any(p, keys), s, ms) <= bound * |keys|
    decreases |keys|
  {
    if keys == {} {
      NothingCounts(c, setup, Any(p, keys), s, ms);
    } else {
      var k :| k in keys;
      CountOverKeys(c, setup, p, keys - {k}, s, ms, bound);
      AnySplits(p, keys, k);
      CountSplits(c, setup, Any(p, keys), p(k), Any(p, keys - {k}), s, ms);
      OneMoreTime(bound, |keys| - 1);
    }
  }

  lemma OneMoreTime(bound: nat, n: nat)
    ensures bound * (n + 1) == bound + bound * n
  {
  }

  lemma WriteIsToAKey(c: Config, setup: Setup, s: System, m: Move)
    requires SteadyMove(c, setup, s, m)
    ensures var t := Apply(c, setup, s, m);
      WritesIn(setup.ns)(s.cluster, t.cluster) ==> Any(WritesTo(), KeysOf(setup.ns, s.cluster))(s.cluster, t.cluster)
  {
    var t := Apply(c, setup, s, m);
    if k: Key :| k.ns == setup.ns && EffectiveOn(s.cluster, t.cluster, k) {
      assert k in KeysOf(setup.ns, s.cluster) && WritesTo()(k)(s.cluster, t.cluster);
    }
  }

  lemma {:induction false} WritesAreToKeys(c: Config, setup: Setup, s: System, ms: seq<Move>, t: System)
    requires Runs(c, setup, s, ms, t)
    ensures EffectiveMoves(c, setup, s, ms) <= Count(c, setup, Any(WritesTo(), KeysOf(setup.ns, s.cluster)), s, ms)
    decreases |ms|
  {
    if ms != [] {
      SteadyMoveKeepsKeys(c, setup, s, ms[0]);
      WriteIsToAKey(c, setup, s, ms[0]);
      WritesAreToKeys(c, setup, Apply(c, setup, s, ms[0]), ms[1..], t);
    }
  }

  // ---------- one revision ----------

  /** The agents' part of a run. */
  ghost function Labels(c: Config, setup: Setup, s: System, ms: seq<Move>): seq<Label>
    decreases |ms|
  {
    if ms == [] || !Enabled(c, setup, s, ms[0]) then []
    else
      var l := LabelOf(c, setup, s, ms[0]);
      (if l.Some? then [l.value] else []) + Labels(c, setup, Apply(c, setup, s, ms[0]), ms[1..])
  }

  /** Every catalog that stamps at all stamps this revision. */
  predicate OneRevision(setup: Setup, revision: string) {
    forall name :: name in setup.revisions ==> setup.revisions[name] == "" || setup.revisions[name] == revision
  }

  /** The reconcile of the env is where its manifest leads. */
  ghost predicate OnCourse(setup: Setup, o: Course, s: State) {
    && o.id.key in s.envs && o.id.key.ns == setup.ns
    && var spec := Current(s.envs[o.id.key]).spec;
    && o.reasons == Reasons(setup, spec)
    && (o.id in s.tasks ==> s.tasks[o.id].read.spec == spec && (s.tasks[o.id].CheckingDeps? ==> GetsThrough(setup, spec)))
  }

  lemma StepStaysOnCourse(c: Config, setup: Setup, o: Course, s: State, l: Label)
    requires OnCourse(setup, o, s) && EnvMachine.Enabled(c, s, l) && SteadyStep(setup, s, l)
    requires c.nodes == {o.id.node}
    ensures OnCourse(setup, o, EnvMachine.Apply(c, s, l))
  {
    if l.Agent? {
      if l.id != o.id {
        OthersUntouched(c, s, l.id, l.action, o.id);
      } else {
        ActStaysOnCourse(c, setup, o, s, l.action);
      }
    }
  }

  lemma ActStaysOnCourse(c: Config, setup: Setup, o: Course, s: State, a: Action)
    requires OnCourse(setup, o, s) && EnvMachine.Enabled(c, s, Agent(o.id, a)) && SteadyStep(setup, s, Agent(o.id, a))
    ensures OnCourse(setup, o, EnvMachine.Apply(c, s, Agent(o.id, a)))
  {
    KeepsSpec(c, s, o.id, a);
    if !a.Get? && Act(c, s, o.id, a).task.Some? { TaskKeepsItsCopies(c, s, o.id, a); }
  }

  /** No step of a reconcile changes a spec. */
  lemma KeepsSpec(c: Config, s: State, id: TaskId, a: Action)
    requires EnvMachine.Enabled(c, s, Agent(id, a)) && id.key in s.envs
    ensures var t := EnvMachine.Apply(c, s, Agent(id, a));
      id.key in t.envs && Current(t.envs[id.key]).spec == Current(s.envs[id.key]).spec
  {
  }

  lemma OnCourseIsNoSetback(c: Config, setup: Setup, o: Course, s: State, l: Label)
    requires OnCourse(setup, o, s) && EnvMachine.Enabled(c, s, l) && SteadyStep(setup, s, l)
    requires !TwoReasons(setup, Current(s.envs[o.id.key]).spec)
    ensures !Setback(o, s, l)
  {
    var env := Current(s.envs[o.id.key]);
    if l.Agent? && l.id == o.id && l.action.Refuse? {
      ReasonsAreRefusals(setup, env.spec, l.action.reason);
      if Held(o, env) { OneReason(setup, env.spec, env.status.ready.value.reason, l.action.reason); }
    }
  }

  /** What one step of the env's run is, at one revision. */
  lemma SteadyStepIsSmooth(c: Config, setup: Setup, o: Course, s: System, m: Move)
    requires c.nodes == {o.id.node} && OneRevision(setup, o.revision) && SteadyMove(c, setup, s, m) && LabelOf(c, setup, s, m).Some?
    requires OnCourse(setup, o, s.cluster) && !TwoReasons(setup, Current(s.cluster.envs[o.id.key]).spec)
    ensures var l := LabelOf(c, setup, s, m).value; var t := Apply(c, setup, s, m).cluster;
      && EnvMachine.Enabled(c, s.cluster, l) && EnvMachine.Apply(c, s.cluster, l) == t
      && SmoothStep(o, s.cluster, l) && !Setback(o, s.cluster, l)
      && OnCourse(setup, o, t) && Current(t.envs[o.id.key]).spec == Current(s.cluster.envs[o.id.key]).spec
  {
    var l := LabelOf(c, setup, s, m).value;
    MoveIsStep(c, setup, s, m);
    StampsAreRevisions(c, setup, s, m);
    OnCourseIsNoSetback(c, setup, o, s.cluster, l);
    StepStaysOnCourse(c, setup, o, s.cluster, l);
    StepKeepsSpec(c, setup, o, s.cluster, l);
  }

  lemma TallyCons(c: Config, o: Course, s: State, l: Label, rest: seq<Label>)
    requires EnvMachine.Enabled(c, s, l) && !Setback(o, s, l)
    ensures var t := EnvMachine.Apply(c, s, l); var after := TallyOf(c, o, t, rest);
      TallyOf(c, o, s, [l] + rest) == Tally((if EffectiveOn(s, t, o.id.key) then 1 else 0) + after.writes, after.setbacks)
  {
    assert ([l] + rest)[1..] == rest;
  }

  /** The agents' part of a run at one revision is one of Quiescence's runs, without setbacks of the env. */
  lemma {:induction false} SteadyRunsAreSmooth(c: Config, setup: Setup, o: Course, s: System, ms: seq<Move>, t: System)
    requires c.nodes == {o.id.node} && OneRevision(setup, o.revision) && Runs(c, setup, s, ms, t)
    requires OnCourse(setup, o, s.cluster) && !TwoReasons(setup, Current(s.cluster.envs[o.id.key]).spec)
    ensures var ls := Labels(c, setup, s, ms);
      && Reaches(c, Smooth(o), s.cluster, ls, t.cluster)
      && TallyOf(c, o, s.cluster, ls) == Tally(Count(c, setup, WritesTo()(o.id.key), s, ms), 0)
    decreases |ms|
  {
    if ms != [] {
      var m := Apply(c, setup, s, ms[0]);
      var l, rest := LabelOf(c, setup, s, ms[0]), Labels(c, setup, m, ms[1..]);
      if l.Some? {
        SteadyStepIsSmooth(c, setup, o, s, ms[0]);
        SteadyRunsAreSmooth(c, setup, o, m, ms[1..], t);
        ReachesCons(c, Smooth(o), s.cluster, l.value, rest, t.cluster);
        TallyCons(c, o, s.cluster, l.value, rest);
      } else {
        MoveIsStep(c, setup, s, ms[0]);
        SteadyRunsAreSmooth(c, setup, o, m, ms[1..], t);
        assert [] + rest == rest;
      }
    }
  }

  lemma StepKeepsSpec(c: Config, setup: Setup, o: Course, s: State, l: Label)
    requires OnCourse(setup, o, s) && EnvMachine.Enabled(c, s, l) && SteadyStep(setup, s, l)
    ensures var t := EnvMachine.Apply(c, s, l);
      o.id.key in t.envs && Current(t.envs[o.id.key]).spec == Current(s.envs[o.id.key]).spec
  {
    if l.Agent? && l.id.key == o.id.key { KeepsSpec(c, s, l.id, l.action); }
  }

  // ---------- envs with nothing ahead ----------

  /** The agent has realised the env and no catalog has another revision for it. */
  ghost predicate AtRest(setup: Setup, id: TaskId, env: FloxEnv) {
    AlreadyRealized(id.node, env) && OneRevision(setup, env.relock)
  }

  ghost predicate Rests(setup: Setup, id: TaskId, s: State) {
    && id.key in s.envs && id.key.ns == setup.ns && AtRest(setup, id, Current(s.envs[id.key]))
    && (id in s.tasks ==> s.tasks[id].Fetched? && s.tasks[id].read == Current(s.envs[id.key]))
  }

  /** Such an env at most gets its first condition. */
  ghost predicate RestedStep(id: TaskId, s: State, t: State)
    requires id.key in s.envs && id.key in t.envs
  {
    && (EffectiveOn(s, t, id.key) ==> Current(s.envs[id.key]).status.ready.None? && Current(t.envs[id.key]).status.ready.Some?)
    && (Current(s.envs[id.key]).status.ready.Some? ==> Current(t.envs[id.key]).status.ready.Some?)
  }

  lemma RestingAct(c: Config, setup: Setup, id: TaskId, s: State, a: Action)
    requires Rests(setup, id, s) && EnvMachine.Enabled(c, s, Agent(id, a)) && SteadyStep(setup, s, Agent(id, a))
    ensures Rests(setup, id, EnvMachine.Apply(c, s, Agent(id, a))) && RestedStep(id, s, EnvMachine.Apply(c, s, Agent(id, a)))
  {
  }

  lemma RestingStep(c: Config, setup: Setup, id: TaskId, s: State, l: Label)
    requires c.nodes == {id.node} && Rests(setup, id, s) && EnvMachine.Enabled(c, s, l) && SteadyStep(setup, s, l)
    requires !(l.EditRelock? && l.key == id.key)
    ensures Rests(setup, id, EnvMachine.Apply(c, s, l)) && RestedStep(id, s, EnvMachine.Apply(c, s, l))
  {
    if l.Agent? {
      if l.id == id { RestingAct(c, setup, id, s, l.action); } else { OthersUntouched(c, s, l.id, l.action, id); }
    }
  }

  lemma RestingMove(c: Config, setup: Setup, id: TaskId, s: System, m: Move)
    requires c.nodes == {id.node} && Rests(setup, id, s.cluster) && SteadyMove(c, setup, s, m)
    ensures Rests(setup, id, Apply(c, setup, s, m).cluster) && RestedStep(id, s.cluster, Apply(c, setup, s, m).cluster)
  {
    MoveIsStep(c, setup, s, m);
    StampsAreRevisions(c, setup, s, m);
    var l := LabelOf(c, setup, s, m);
    if l.Some? { RestingStep(c, setup, id, s.cluster, l.value); }
  }

  lemma {:induction false} RestingRuns(c: Config, setup: Setup, id: TaskId, s: System, ms: seq<Move>, t: System)
    requires c.nodes == {id.node} && Rests(setup, id, s.cluster) && Runs(c, setup, s, ms, t)
    ensures Count(c, setup, WritesTo()(id.key), s, ms) <= if Current(s.cluster.envs[id.key]).status.ready.None? then 1 else 0
    decreases |ms|
  {
    if ms != [] {
      RestingMove(c, setup, id, s, ms[0]);
      RestingRuns(c, setup, id, Apply(c, setup, s, ms[0]), ms[1..], t);
    }
  }

  // ---------- the bound ----------

  /** The obstacle of an env changes with the order its install table is visited in, as long as it is not at rest. */
  ghost predicate Flaps(setup: Setup, id: TaskId, env: FloxEnv) {
    TwoReasons(setup, env.spec) && !AtRest(setup, id, env)
  }

  ghost predicate NoneFlaps(setup: Setup, node: string, s: State) {
    forall k :: k in s.envs && k.ns == setup.ns ==> !Flaps(setup, TaskId(node, k), Current(s.envs[k]))
  }

  lemma OneEnvSettles(c: Config, setup: Setup, revision: string, id: TaskId, s: System, ms: seq<Move>, t: System)
    requires c.nodes == {id.node} && OneRevision(setup, revision) && Runs(c, setup, s, ms, t)
    requires id !in s.cluster.tasks && id.key in s.cluster.envs && id.key.ns == setup.ns
    requires !Flaps(setup, id, Current(s.cluster.envs[id.key]))
    ensures Count(c, setup, WritesTo()(id.key), s, ms) <= 10
  {
    var env := Current(s.cluster.envs[id.key]);
    if TwoReasons(setup, env.spec) {
      RestingRuns(c, setup, id, s, ms, t);
    } else {
      var o := Course(id, revision, Reasons(setup, env.spec));
      SteadyRunsAreSmooth(c, setup, o, s, ms, t);
      FeedbackLoopSettles(c, o, s.cluster, Labels(c, setup, s, ms), t.cluster);
    }
  }

  /** At one revision, and with no env whose obstacle may change, the loop settles: at most ten effective
      writes per env of the namespace, in every run, whether patches of passes are accepted or not. */
  lemma OneRevisionSettles(c: Config, node: string, setup: Setup, revision: string, s: System, ms: seq<Move>, t: System)
    requires c.nodes == {node} && Restarted(s.cluster, node) && OneRevision(setup, revision)
    requires NoneFlaps(setup, node, s.cluster) && Runs(c, setup, s, ms, t)
    ensures EffectiveMoves(c, setup, s, ms) <= 10 * |KeysOf(setup.ns, s.cluster)|
  {
    var keys := KeysOf(setup.ns, s.cluster);
    forall k | k in keys ensures Count(c, setup, WritesTo()(k), s, ms) <= 10 {
      OneEnvSettles(c, setup, revision, TaskId(node, k), s, ms, t);
    }
    CountOverKeys(c, setup, WritesTo(), keys, s, ms, 10);
    WritesAreToKeys(c, setup, s, ms, t);
  }
}

/** A namespace in which no env can be built settles whatever its catalogs stamp: envs are held, readiness
    moves at most twice for each, and each wake lets a catalog stamp each env once. */
module BarrenNamespace {
  import opened FloxApi
  import opened EnvMachine
  import opened Relock
  import opened Quiescence
  import opened CatalogLoop
  import opened FiniteSets
  import CatalogRollup

  /** No reconcile of the namespace gets past its dependencies. */
  ghost predicate TaskHeld(s: State, id: TaskId, t: Task) {
    && id.key in s.envs && t.read.spec == Current(s.envs[id.key]).spec
    && t.read.status.ready == Current(s.envs[id.key]).status.ready
    && (t.Fetched? || (t.CheckingDeps? && exists i :: UnmetAt(s.envs, id.key, t, i)))
  }

  /** The i-th dependency was never Ready, and counts as unmet once it was checked. */
  predicate UnmetAt(envs: map<Key, History>, key: Key, t: Task, i: int)
    requires t.CheckingDeps?
  {
    && 0 <= i < |t.read.spec.dependsOn| && !SeenReady(envs, DepKey(key, t.read.spec.dependsOn[i]))
    && (i < t.next ==> t.unmet != [])
  }

  ghost predicate Barren(setup: Setup, node: string, s: State) {
    && (forall k :: k in s.envs && k.ns == setup.ns ==> !CanBuild(setup, s, k))
    && (forall id :: id in s.tasks && id.key.ns == setup.ns ==> id.node == node && TaskHeld(s, id, s.tasks[id]))
  }

  // ---------- it stays so ----------

  /** A step that makes nothing of the namespace Ready and changes no spec there. */
  ghost predicate KeepsBarren(ns: string, s: State, t: State) {
    forall k :: k in t.envs && k.ns == ns ==>
      k in s.envs && Current(t.envs[k]).spec == Current(s.envs[k]).spec && (WasReady(t.envs[k]) <==> WasReady(s.envs[k]))
  }

  lemma AppendedReady(h: History, env: FloxEnv)
    requires IsReady(env) ==> IsReady(Current(h))
    ensures WasReady(h + [env]) <==> WasReady(h)
  {
    if i :| 0 <= i < |h| && IsReady(h[i]) { assert (h + [env])[i] == h[i]; }
    if i :| 0 <= i < |h + [env]| && IsReady((h + [env])[i]) { assert i < |h| ==> h[i] == (h + [env])[i]; }
  }

  /** A held reconcile stores no more than a condition that is not True. */
  lemma HeldActStores(c: Config, s: State, id: TaskId, a: Action)
    requires EnvMachine.Enabled(c, s, Agent(id, a)) && (id in s.tasks ==> TaskHeld(s, id, s.tasks[id]))
    ensures var e := Act(c, s, id, a);
      e.stored.Some? ==>
        && id.key in s.envs && !a.Get? && id in s.tasks && e.task.None?
        && (a.PublishPending? || a.HoldForDeps? || a.Refuse?)
        && e.stored.value == Current(s.envs[id.key]).(status := Current(s.envs[id.key]).status.(ready := e.stored.value.status.ready))
        && (IsReady(e.stored.value) ==> IsReady(Current(s.envs[id.key])))
  {
    if Act(c, s, id, a).stored.Some? { OnlyCommitWritesMore(c, s, id, a); }
  }

  lemma ActKeepsBarren(c: Config, setup: Setup, s: State, id: TaskId, a: Action)
    requires EnvMachine.Enabled(c, s, Agent(id, a)) && (id.key.ns == setup.ns && id in s.tasks ==> TaskHeld(s, id, s.tasks[id]))
    ensures KeepsBarren(setup.ns, s, EnvMachine.Apply(c, s, Agent(id, a)))
  {
    var t := EnvMachine.Apply(c, s, Agent(id, a));
    var e := Act(c, s, id, a);
    if id.key.ns == setup.ns {
      HeldActStores(c, s, id, a);
      if e.stored.Some? { AppendedReady(s.envs[id.key], e.stored.value); }
    }
  }

  lemma StepKeepsBarren(c: Config, setup: Setup, node: string, s: State, l: Label)
    requires c.nodes == {node} && Barren(setup, node, s) && EnvMachine.Enabled(c, s, l) && SteadyStep(setup, s, l)
    ensures KeepsBarren(setup.ns, s, EnvMachine.Apply(c, s, l))
  {
    match l
    case Agent(id, a) => ActKeepsBarren(c, setup, s, id, a);
    case EditRelock(key, value) => AppendedReady(s.envs[key], Current(s.envs[key]).(relock := value));
    case _ =>
  }

  lemma HeldStays(envs: map<Key, History>, more: map<Key, History>, ns: string, key: Key, t: Task, i: int)
    requires t.CheckingDeps? && UnmetAt(envs, key, t, i) && key.ns == ns
    requires forall k :: k in more && k.ns == ns ==> k in envs && (WasReady(more[k]) <==> WasReady(envs[k]))
    ensures UnmetAt(more, key, t, i)
  {
  }

  /** The next Get of a dependency finds one that was never Ready unmet. */
  lemma CheckStaysHeld(c: Config, s: State, id: TaskId, a: Action)
    requires EnvMachine.Enabled(c, s, Agent(id, a)) && a.CheckDep? && TaskHeld(s, id, s.tasks[id])
    ensures var t := Act(c, s, id, a).task; t.Some? && t.value.CheckingDeps? && exists i :: UnmetAt(s.envs, id.key, t.value, i)
  {
    var t := s.tasks[id];
    var i :| UnmetAt(s.envs, id.key, t, i);
    assert UnmetAt(s.envs, id.key, Act(c, s, id, a).task.value, i);
  }

  lemma HeldActLeavesHeldTask(c: Config, setup: Setup, node: string, s: State, id: TaskId, a: Action)
    requires c.nodes == {node} && Barren(setup, node, s) && id.key.ns == setup.ns
    requires EnvMachine.Enabled(c, s, Agent(id, a)) && SteadyStep(setup, s, Agent(id, a)) && Act(c, s, id, a).task.Some?
    ensures Act(c, s, id, a).stored.None? && TaskHeld(s, id, Act(c, s, id, a).task.value)
  {
    if id in s.tasks { assert TaskHeld(s, id, s.tasks[id]); }
    if a.CheckDep? {
      CheckStaysHeld(c, s, id, a);
    } else if a.ManifestReady? {
      var read := s.tasks[id].read;
      assert !CanBuild(setup, s, id.key);
      var name :| name in read.spec.dependsOn && !SeenReady(s.envs, DepKey(id.key, name));
      var i :| 0 <= i < |read.spec.dependsOn| && read.spec.dependsOn[i] == name;
      assert UnmetAt(s.envs, id.key, CheckingDeps(read, 0, []), i);
    }
  }

  /** A held reconcile stays held over the steps of others. */
  lemma OtherTaskStaysHeld(setup: Setup, s: State, t: State, id: TaskId)
    requires KeepsBarren(setup.ns, s, t) && id in s.tasks && id in t.tasks && t.tasks[id] == s.tasks[id] && id.key.ns == setup.ns
    requires TaskHeld(s, id, s.tasks[id]) && id.key in t.envs
    requires Current(t.envs[id.key]).status.ready == Current(s.envs[id.key]).status.ready
    ensures TaskHeld(t, id, t.tasks[id])
  {
    if t.tasks[id].CheckingDeps? {
      var i :| UnmetAt(s.envs, id.key, s.tasks[id], i);
      HeldStays(s.envs, t.envs, setup.ns, id.key, t.tasks[id], i);
    }
  }

  lemma AgentStepKeepsHeld(c: Config, setup: Setup, node: string, s: State, id: TaskId, a: Action, other: TaskId)
    requires c.nodes == {node} && Barren(setup, node, s)
    requires EnvMachine.Enabled(c, s, Agent(id, a)) && SteadyStep(setup, s, Agent(id, a))
    requires other in EnvMachine.Apply(c, s, Agent(id, a)).tasks && other.key.ns == setup.ns
    ensures var t := EnvMachine.Apply(c, s, Agent(id, a)); other.node == node && TaskHeld(t, other, t.tasks[other])
  {
    var t := EnvMachine.Apply(c, s, Agent(id, a));
    if other == id {
      HeldActLeavesHeldTask(c, setup, node, s, id, a);
      assert t.envs == s.envs && t.tasks[id] == Act(c, s, id, a).task.value;
    } else {
      StepKeepsBarren(c, setup, node, s, Agent(id, a));
      OthersUntouched(c, s, id, a, other);
      OtherTaskStaysHeld(setup, s, t, other);
    }
  }

  lemma OtherStepKeepsHeld(c: Config, setup: Setup, node: string, s: State, l: Label, other: TaskId)
    requires c.nodes == {node} && Barren(setup, node, s) && EnvMachine.Enabled(c, s, l) && SteadyStep(setup, s, l) && !l.Agent?
    requires other in EnvMachine.Apply(c, s, l).tasks && other.key.ns == setup.ns
    ensures var t := EnvMachine.Apply(c, s, l); other.node == node && TaskHeld(t, other, t.tasks[other])
  {
    StepKeepsBarren(c, setup, node, s, l);
    OtherTaskStaysHeld(setup, s, EnvMachine.Apply(c, s, l), other);
  }

  lemma StillCannotBuild(setup: Setup, s: State, t: State, k: Key)
    requires KeepsBarren(setup.ns, s, t) && k in t.envs && k.ns == setup.ns && k in s.envs && !CanBuild(setup, s, k)
    ensures !CanBuild(setup, t, k)
  {
  }

  lemma StepStaysBarren(c: Config, setup: Setup, node: string, s: State, l: Label)
    requires c.nodes == {node} && Barren(setup, node, s) && EnvMachine.Enabled(c, s, l) && SteadyStep(setup, s, l)
    ensures Barren(setup, node, EnvMachine.Apply(c, s, l))
  {
    var t := EnvMachine.Apply(c, s, l);
    StepKeepsBarren(c, setup, node, s, l);
    forall k | k in t.envs && k.ns == setup.ns ensures !CanBuild(setup, t, k) { StillCannotBuild(setup, s, t, k); }
    forall id | id in t.tasks && id.key.ns == setup.ns ensures id.node == node && TaskHeld(t, id, t.tasks[id]) {
      if l.Agent? { AgentStepKeepsHeld(c, setup, node, s, l.id, l.action, id); } else { OtherStepKeepsHeld(c, setup, node, s, l, id); }
    }
  }

  // ---------- readiness moves ----------

  /** Readiness moves ahead: Pending, the obstacle. */
  function Ahead(o: Course, env: FloxEnv): nat {
    if env.status.ready.None? then 2 else if Held(o, env) then 0 else 1
  }

  ghost function MovesOf(): Key -> (State, State) -> bool {
    (k: Key) => (s: State, t: State) => k in s.envs && k in t.envs && CatalogRollup.Passes(Current(s.envs[k]), Current(t.envs[k]))
  }

  /** What a step in a barren namespace does to one env: a readiness move uses up one of those ahead, and nothing
      else is written but the annotation. */
  ghost predicate Holds(o: Course, s: State, t: State)
    requires o.id.key in s.envs
  {
    && o.id.key in t.envs
    && var before, after := Current(s.envs[o.id.key]), Current(t.envs[o.id.key]);
    && Ahead(o, after) <= Ahead(o, before)
    && (CatalogRollup.StatusAndReason(before) != CatalogRollup.StatusAndReason(after) ==> Ahead(o, after) < Ahead(o, before))
    && after.status.lock == before.status.lock && after.status.relockToken == before.status.relockToken
  }

  lemma HeldActHolds(c: Config, setup: Setup, o: Course, s: State, a: Action)
    requires o.id.key in s.envs && EnvMachine.Enabled(c, s, Agent(o.id, a)) && (o.id in s.tasks ==> TaskHeld(s, o.id, s.tasks[o.id]))
    requires !Setback(o, s, Agent(o.id, a))
    ensures Holds(o, s, EnvMachine.Apply(c, s, Agent(o.id, a)))
  {
    HeldActStores(c, s, o.id, a);
    if a.HoldForDeps? || a.Refuse? { HoldStores(c, s, o.id, a); }
  }

  lemma StepHolds(c: Config, setup: Setup, o: Course, s: State, l: Label)
    requires c.nodes == {o.id.node} && Barren(setup, o.id.node, s) && EnvMachine.Enabled(c, s, l) && SteadyStep(setup, s, l)
    requires OnCourse(setup, o, s) && !TwoReasons(setup, Current(s.envs[o.id.key]).spec)
    ensures Holds(o, s, EnvMachine.Apply(c, s, l))
  {
    if l.Agent? {
      if l.id == o.id {
        OnCourseIsNoSetback(c, setup, o, s, l);
        HeldActHolds(c, setup, o, s, l.action);
      } else {
        OthersUntouched(c, s, l.id, l.action, o.id);
      }
    }
  }

  /** What every move of a run keeps of one env. */
  ghost predicate Waits(setup: Setup, o: Course, s: State) {
    Barren(setup, o.id.node, s) && OnCourse(setup, o, s) && !TwoReasons(setup, Current(s.envs[o.id.key]).spec)
  }

  lemma MoveHolds(c: Config, setup: Setup, o: Course, s: System, m: Move)
    requires c.nodes == {o.id.node} && Waits(setup, o, s.cluster) && SteadyMove(c, setup, s, m)
    ensures Waits(setup, o, CatalogLoop.Apply(c, setup, s, m).cluster) && Holds(o, s.cluster, CatalogLoop.Apply(c, setup, s, m).cluster)
  {
    MoveIsStep(c, setup, s, m);
    var l := LabelOf(c, setup, s, m);
    if l.Some? {
      StepHolds(c, setup, o, s.cluster, l.value);
      StepStaysBarren(c, setup, o.id.node, s.cluster, l.value);
      StepStaysOnCourse(c, setup, o, s.cluster, l.value);
      StepKeepsSpec(c, setup, o, s.cluster, l.value);
    }
  }

  lemma {:induction false} FewMoves(c: Config, setup: Setup, o: Course, s: System, ms: seq<Move>, t: System)
    requires c.nodes == {o.id.node} && Waits(setup, o, s.cluster) && Runs(c, setup, s, ms, t)
    ensures Count(c, setup, MovesOf()(o.id.key), s, ms) <= Ahead(o, Current(s.cluster.envs[o.id.key]))
    decreases |ms|
  {
    if ms != [] {
      var m := CatalogLoop.Apply(c, setup, s, ms[0]);
      MoveHolds(c, setup, o, s, ms[0]);
      CatalogRollup.ReadinessIsFaithful(Current(s.cluster.envs[o.id.key]), Current(m.cluster.envs[o.id.key]));
      FewMoves(c, setup, o, m, ms[1..], t);
    }
  }

  // ---------- wakes ----------

  ghost function WakesIn(ns: string): (State, State) -> bool {
    (s: State, t: State) => Wakes(ns, s, t)
  }

  lemma WakeIsAMove(ns: string, s: State, t: State)
    requires KeysOf(ns, t) == KeysOf(ns, s) && Wakes(ns, s, t)
    ensures Any(MovesOf(), KeysOf(ns, s))(s, t)
  {
    var k :| k in t.envs && k.ns == ns && (k in s.envs ==> CatalogRollup.Passes(Current(s.envs[k]), Current(t.envs[k])));
    assert k in KeysOf(ns, t);
    assert MovesOf()(k)(s, t);
  }

  lemma {:induction false} WakesAreMoves(c: Config, setup: Setup, s: System, ms: seq<Move>, t: System)
    requires Runs(c, setup, s, ms, t)
    ensures Count(c, setup, WakesIn(setup.ns), s, ms) <= Count(c, setup, Any(MovesOf(), KeysOf(setup.ns, s.cluster)), s, ms)
    decreases |ms|
  {
    if ms != [] {
      SteadyMoveKeepsKeys(c, setup, s, ms[0]);
      var m := CatalogLoop.Apply(c, setup, s, ms[0]);
      if Wakes(setup.ns, s.cluster, m.cluster) { WakeIsAMove(setup.ns, s.cluster, m.cluster); }
      WakesAreMoves(c, setup, m, ms[1..], t);
    }
  }

  // ---------- stamps ----------

  ghost function StampsTo(): Key -> (State, State) -> bool {
    (k: Key) => (s: State, t: State) => k in s.envs && k in t.envs && Current(s.envs[k]).relock != Current(t.envs[k]).relock
  }

  ghost function Queued(setup: Setup, s: System): set<string> { s.queue * setup.revisions.Keys }

  ghost function Coming(s: System, k: Key): set<string> { set name | name in s.passing && Visits(s.passing[name], k) }

  /** The stamps an env may still get before the next wake: one from each pass queued or on its way to it. */
  ghost function Load(setup: Setup, s: System, k: Key): nat { |Queued(setup, s)| + |Coming(s, k)| }

  ghost predicate Tidy(s: System) { forall name :: name in s.passing ==> Distinct(s.passing[name]) }

  lemma QueueGrows(setup: Setup, s: System, t: System)
    requires t.queue <= s.queue + setup.revisions.Keys
    ensures |Queued(setup, t)| <= |Queued(setup, s)| + |setup.revisions|
  {
    SubsetIsSmaller(Queued(setup, t), Queued(setup, s) + setup.revisions.Keys);
    assert |setup.revisions.Keys| == |setup.revisions|;
    assert |Queued(setup, s) + setup.revisions.Keys|
        == |Queued(setup, s)| + |setup.revisions.Keys| - |Queued(setup, s) * setup.revisions.Keys|;
  }

  lemma ActKeepsRelock(c: Config, s: State, id: TaskId, a: Action)
    requires EnvMachine.Enabled(c, s, Agent(id, a)) && id.key in s.envs
    ensures var t := EnvMachine.Apply(c, s, Agent(id, a));
      id.key in t.envs && Current(t.envs[id.key]).relock == Current(s.envs[id.key]).relock
  {
  }

  lemma AgentsKeepRelock(c: Config, s: State, l: Label, k: Key)
    requires EnvMachine.Enabled(c, s, l) && k in s.envs && !(l.EditRelock? && l.key == k)
    ensures var t := EnvMachine.Apply(c, s, l); k in t.envs && Current(t.envs[k]).relock == Current(s.envs[k]).relock
  {
    if l.Agent? && l.id.key == k { ActKeepsRelock(c, s, l.id, l.action); }
  }

  /** What a move does to the stamps ahead of one env. */
  ghost predicate Lightens(setup: Setup, s: System, t: System, k: Key) {
    && Tidy(t)
    && (if StampsTo()(k)(s.cluster, t.cluster) then 1 else 0) + Load(setup, t, k)
       <= Load(setup, s, k) + if WakesIn(setup.ns)(s.cluster, t.cluster) then |setup.revisions| else 0
  }

  lemma AgentsLighten(c: Config, setup: Setup, s: System, m: Move, k: Key)
    requires SteadyMove(c, setup, s, m) && m.OfAgents? && Tidy(s) && k.ns == setup.ns && k in s.cluster.envs
    ensures Lightens(setup, s, CatalogLoop.Apply(c, setup, s, m), k)
  {
    var t := CatalogLoop.Apply(c, setup, s, m);
    AgentsKeepRelock(c, s.cluster, m.step, k);
    assert t.passing == s.passing && Coming(t, k) == Coming(s, k);
    if Wakes(setup.ns, s.cluster, t.cluster) { QueueGrows(setup, s, t); } else { assert t.queue == s.queue; }
  }

  lemma BeginLightens(c: Config, setup: Setup, s: System, m: Move, k: Key)
    requires SteadyMove(c, setup, s, m) && m.Begin? && Tidy(s)
    ensures Lightens(setup, s, CatalogLoop.Apply(c, setup, s, m), k)
  {
    var t := CatalogLoop.Apply(c, setup, s, m);
    assert Queued(setup, t) == Queued(setup, s) - {m.catalog};
    SubsetIsSmaller(Coming(t, k), Coming(s, k) + {m.catalog});
  }

  lemma EndLightens(c: Config, setup: Setup, s: System, m: Move, k: Key)
    requires SteadyMove(c, setup, s, m) && m.End? && Tidy(s)
    ensures Lightens(setup, s, CatalogLoop.Apply(c, setup, s, m), k)
  {
    var t := CatalogLoop.Apply(c, setup, s, m);
    SubsetIsSmaller(Coming(t, k), Coming(s, k));
  }

  lemma StampUsesItsVisit(setup: Setup, s: System, t: System, name: string, k: Key)
    requires Tidy(s) && name in s.passing && s.passing[name] != [] && t.passing == s.passing[name := s.passing[name][1..]]
    ensures Tidy(t) && |Coming(t, k)| <= |Coming(s, k)|
    ensures s.passing[name][0].key == k ==> |Coming(t, k)| < |Coming(s, k)|
  {
    var todo := s.passing[name];
    assert todo == [todo[0]] + todo[1..];
    assert forall i :: 0 <= i < |todo[1..]| ==> todo[1..][i] == todo[i + 1];
    assert Coming(t, k) <= Coming(s, k);
    SubsetIsSmaller(Coming(t, k), Coming(s, k));
    if todo[0].key == k {
      assert name in Coming(s, k) && name !in Coming(t, k);
      SubsetIsSmaller(Coming(t, k), Coming(s, k) - {name});
    }
  }

  lemma StampLightens(c: Config, setup: Setup, s: System, m: Move, k: Key)
    requires SteadyMove(c, setup, s, m) && m.StampNext? && m.accepted && Tidy(s) && k in s.cluster.envs
    ensures Lightens(setup, s, CatalogLoop.Apply(c, setup, s, m), k)
  {
    var t := CatalogLoop.Apply(c, setup, s, m);
    MoveIsStep(c, setup, s, m);
    StampUsesItsVisit(setup, s, t, m.catalog, k);
    if LabelOf(c, setup, s, m).Some? && s.passing[m.catalog][0].key != k {
      AgentsKeepRelock(c, s.cluster, LabelOf(c, setup, s, m).value, k);
    }
    if Wakes(setup.ns, s.cluster, t.cluster) { QueueGrows(setup, s, t); } else { assert t.queue == s.queue; }
  }

  lemma MoveLightens(c: Config, setup: Setup, s: System, m: Move, k: Key)
    requires SteadyMove(c, setup, s, m) && (m.StampNext? ==> m.accepted) && Tidy(s) && k.ns == setup.ns && k in s.cluster.envs
    ensures Lightens(setup, s, CatalogLoop.Apply(c, setup, s, m), k) && k in CatalogLoop.Apply(c, setup, s, m).cluster.envs
  {
    SteadyMoveKeepsKeys(c, setup, s, m);
    assert k in KeysOf(setup.ns, s.cluster);
    match m
    case OfAgents(_) => AgentsLighten(c, setup, s, m, k);
    case Begin(_, _) => BeginLightens(c, setup, s, m, k);
    case StampNext(_, _) => StampLightens(c, setup, s, m, k);
    case End(_) => EndLightens(c, setup, s, m, k);
  }

  lemma RestIsAccepted(ms: seq<Move>)
    requires Accepted(ms) && ms != []
    ensures Accepted(ms[1..]) && (ms[0].StampNext? ==> ms[0].accepted)
  {
    assert forall i :: 0 <= i < |ms[1..]| ==> ms[1..][i] == ms[i + 1];
  }

  /** r for each of n wakes. */
  function Times(r: nat, n: nat): nat { if n == 0 then 0 else r + Times(r, n - 1) }

  /** A stamp of every catalog for each wake of the run. */
  ghost function Allowance(c: Config, setup: Setup, s: System, ms: seq<Move>): nat
    decreases |ms|
  {
    if ms == [] || !CatalogLoop.Enabled(c, setup, s, ms[0]) then 0
    else
      var t := CatalogLoop.Apply(c, setup, s, ms[0]);
      (if WakesIn(setup.ns)(s.cluster, t.cluster) then |setup.revisions| else 0) + Allowance(c, setup, t, ms[1..])
  }

  lemma {:induction false} AllowanceFits(c: Config, setup: Setup, s: System, ms: seq<Move>, wakes: nat)
    requires Count(c, setup, WakesIn(setup.ns), s, ms) <= wakes
    ensures Allowance(c, setup, s, ms) <= Times(|setup.revisions|, wakes)
    decreases |ms|
  {
    if ms != [] && CatalogLoop.Enabled(c, setup, s, ms[0]) {
      var t := CatalogLoop.Apply(c, setup, s, ms[0]);
      AllowanceFits(c, setup, t, ms[1..], if WakesIn(setup.ns)(s.cluster, t.cluster) then wakes - 1 else wakes);
    }
  }

  lemma {:induction false} StampsAreAllowed(c: Config, setup: Setup, k: Key, s: System, ms: seq<Move>, t: System)
    requires Runs(c, setup, s, ms, t) && Accepted(ms) && Tidy(s) && k.ns == setup.ns && k in s.cluster.envs
    ensures Count(c, setup, StampsTo()(k), s, ms) <= Load(setup, s, k) + Allowance(c, setup, s, ms)
    decreases |ms|
  {
    if ms != [] {
      RestIsAccepted(ms);
      MoveLightens(c, setup, s, ms[0], k);
      StampsAreAllowed(c, setup, k, CatalogLoop.Apply(c, setup, s, ms[0]), ms[1..], t);
    }
  }

  // ---------- the bound ----------

  /** An effective write is a stamp or a readiness move. */
  lemma {:induction false} WritesAreEither(c: Config, setup: Setup, o: Course, s: System, ms: seq<Move>, t: System)
    requires c.nodes == {o.id.node} && Waits(setup, o, s.cluster) && Runs(c, setup, s, ms, t)
    ensures var k := o.id.key;
      Count(c, setup, WritesTo()(k), s, ms) <= Count(c, setup, StampsTo()(k), s, ms) + Count(c, setup, MovesOf()(k), s, ms)
    decreases |ms|
  {
    if ms != [] {
      var m := CatalogLoop.Apply(c, setup, s, ms[0]);
      MoveHolds(c, setup, o, s, ms[0]);
      CatalogRollup.ReadinessIsFaithful(Current(s.cluster.envs[o.id.key]), Current(m.cluster.envs[o.id.key]));
      WritesAreEither(c, setup, o, m, ms[1..], t);
    }
  }

  ghost function WakesBound(setup: Setup, s: System): nat { 2 * |KeysOf(setup.ns, s.cluster)| }

  /** Two readiness moves, and a stamp of every catalog for the start and for each wake. */
  ghost function EnvBound(setup: Setup, s: System): nat { 2 + Times(|setup.revisions|, WakesBound(setup, s) + 1) }

  /** No env of the namespace can be built, none is refused now for one reason and now for another. */
  ghost predicate Hopeless(setup: Setup, node: string, s: System) {
    && Restarted(s.cluster, node) && s.passing == map[]
    && forall k :: k in s.cluster.envs && k.ns == setup.ns ==>
         !CanBuild(setup, s.cluster, k) && !TwoReasons(setup, Current(s.cluster.envs[k]).spec)
  }

  ghost function CourseOf(setup: Setup, node: string, s: State, k: Key): Course
    requires k in s.envs
  {
    Course(TaskId(node, k), "", Reasons(setup, Current(s.envs[k]).spec))
  }

  lemma FewWakes(c: Config, node: string, setup: Setup, s: System, ms: seq<Move>, t: System)
    requires c.nodes == {node} && Hopeless(setup, node, s) && Runs(c, setup, s, ms, t)
    ensures Count(c, setup, WakesIn(setup.ns), s, ms) <= WakesBound(setup, s)
  {
    var keys := KeysOf(setup.ns, s.cluster);
    forall k | k in keys ensures Count(c, setup, MovesOf()(k), s, ms) <= 2 {
      FewMoves(c, setup, CourseOf(setup, node, s.cluster, k), s, ms, t);
    }
    CountOverKeys(c, setup, MovesOf(), keys, s, ms, 2);
    WakesAreMoves(c, setup, s, ms, t);
  }

  lemma StartLoad(setup: Setup, s: System, k: Key)
    requires s.passing == map[]
    ensures Tidy(s) && Load(setup, s, k) <= |setup.revisions|
  {
    SubsetIsSmaller(Queued(setup, s), setup.revisions.Keys);
    assert Coming(s, k) == {} && |setup.revisions.Keys| == |setup.revisions|;
  }

  lemma FewStampsFromTheStart(c: Config, node: string, setup: Setup, s: System, ms: seq<Move>, t: System, k: Key)
    requires c.nodes == {node} && Hopeless(setup, node, s) && Runs(c, setup, s, ms, t) && Accepted(ms)
    requires k in KeysOf(setup.ns, s.cluster)
    ensures Count(c, setup, StampsTo()(k), s, ms) <= Times(|setup.revisions|, WakesBound(setup, s) + 1)
  {
    StartLoad(setup, s, k);
    StampsAreAllowed(c, setup, k, s, ms, t);
    FewWakes(c, node, setup, s, ms, t);
    AllowanceFits(c, setup, s, ms, WakesBound(setup, s));
  }

  lemma HopelessWaits(setup: Setup, node: string, s: System, k: Key)
    requires Hopeless(setup, node, s) && k in KeysOf(setup.ns, s.cluster)
    ensures Waits(setup, CourseOf(setup, node, s.cluster, k), s.cluster)
  {
  }

  lemma FewWrites(c: Config, node: string, setup: Setup, s: System, ms: seq<Move>, t: System, k: Key)
    requires c.nodes == {node} && Hopeless(setup, node, s) && Runs(c, setup, s, ms, t) && Accepted(ms)
    requires k in KeysOf(setup.ns, s.cluster)
    ensures Count(c, setup, WritesTo()(k), s, ms) <= EnvBound(setup, s)
  {
    var o := CourseOf(setup, node, s.cluster, k);
    HopelessWaits(setup, node, s, k);
    FewStampsFromTheStart(c, node, setup, s, ms, t, k);
    FewMoves(c, setup, o, s, ms, t);
    WritesAreEither(c, setup, o, s, ms, t);
  }

  /** The main result: such a namespace settles, at any revisions. */
  lemma BarrenSettles(c: Config, node: string, setup: Setup, s: System, ms: seq<Move>, t: System)
    requires c.nodes == {node} && Hopeless(setup, node, s) && Runs(c, setup, s, ms, t) && Accepted(ms)
    ensures EffectiveMoves(c, setup, s, ms) <= EnvBound(setup, s) * |KeysOf(setup.ns, s.cluster)|
  {
    var keys := KeysOf(setup.ns, s.cluster);
    forall k | k in keys ensures Count(c, setup, WritesTo()(k), s, ms) <= EnvBound(setup, s) {
      FewWrites(c, node, setup, s, ms, t, k);
    }
    CountOverKeys(c, setup, WritesTo(), keys, s, ms, EnvBound(setup, s));
    WritesAreToKeys(c, setup, s, ms, t);
  }
}

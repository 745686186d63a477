/** Building blocks of runs of the catalog loop: steps of one undisturbed reconcile, passes of a catalog, and
    how they add up. */
module LoopRuns {
  import opened FloxApi
  import opened EnvStatusRecord
  import opened EnvMachine
  import opened ReconcileRun
  import opened Relock
  import opened Quiescence
  import opened CatalogLoop
  import CatalogRollup

  // ---------- one reconcile ----------

  ghost function CalmOwn(setup: Setup, id: TaskId): (State, Label) -> bool {
    (s: State, l: Label) => l.Agent? && l.id == id && SteadyStep(setup, s, l)
  }

  lemma CalmStep(
    c: Config, setup: Setup, s: State, id: TaskId, a: Action, envs: Envs, workloads: ConsumerRolls.Workloads, task: Task, held: int, due: bool)
    returns (t: State)
    requires id.node in c.nodes && id.key in envs && At(s, id, envs, workloads, Some(task), held, due)
    requires id.key in s.envs && TaskEnabled(c, s, id, task, a) && !Fails(a)
    requires a.Refuse? ==> Refuses(setup, task.read.spec, a.reason)
    requires a.ManifestReady? ==> GetsThrough(setup, task.read.spec)
    ensures Path(c, CalmOwn(setup, id), s, t) && Grows(s.envs, t.envs)
    ensures var e := ActOn(c, s, id, task, s.envs[id.key], a);
      At(t, id, if e.stored.Some? then envs[id.key := e.stored.value] else envs, Stamp(workloads, e.stamp), e.task,
         held + e.slots, due || e.requeue)
  {
    t := Step(c, s, id, a, envs, workloads, task, held, due);
    StepIsAPath(c, CalmOwn(setup, id), s, Agent(id, a));
  }

  lemma CalmFetch(c: Config, setup: Setup, s: State, id: TaskId, envs: Envs, workloads: ConsumerRolls.Workloads) returns (t: State)
    requires id.node in c.nodes && id.key in envs && At(s, id, envs, workloads, None, 0, true)
    ensures Path(c, CalmOwn(setup, id), s, t) && Grows(s.envs, t.envs)
    ensures At(t, id, envs, workloads, Some(Fetched(envs[id.key])), 0, false)
  {
    t := Fetch(c, s, id, envs, workloads, 0);
    StepIsAPath(c, CalmOwn(setup, id), s, FreshGet(s, id));
  }

  lemma CalmAnnounce(c: Config, setup: Setup, s: State, id: TaskId, envs: Envs, workloads: ConsumerRolls.Workloads) returns (t: State)
    requires id.node in c.nodes && id.key in envs && At(s, id, envs, workloads, Some(HoldingSlot(envs[id.key])), 1, false)
    ensures Path(c, CalmOwn(setup, id), s, t)
    ensures var view := envs[id.key].(status := RealizingStatus(id.node, envs[id.key]));
      At(t, id, envs[id.key := view], workloads, Some(Announced(envs[id.key], view)), 1, false)
  {
    t := Announces(c, s, id, envs, workloads, true, 1);
    StepIsAPath(c, CalmOwn(setup, id), s, Agent(id, Announce(true)));
  }

  // ---------- runs of the whole loop ----------

  /** Some run, with every patch of its passes accepted, leads from s to t with at least n effective writes. */
  ghost predicate Makes(c: Config, setup: Setup, s: System, n: nat, t: System) {
    exists ms :: Runs(c, setup, s, ms, t) && Accepted(ms) && EffectiveMoves(c, setup, s, ms) >= n
  }

  lemma RunsCons(c: Config, setup: Setup, s: System, m: Move, ms: seq<Move>, t: System)
    requires SteadyMove(c, setup, s, m) && Runs(c, setup, CatalogLoop.Apply(c, setup, s, m), ms, t)
    ensures var u := CatalogLoop.Apply(c, setup, s, m);
      && Runs(c, setup, s, [m] + ms, t)
      && EffectiveMoves(c, setup, s, [m] + ms)
         == (if WritesIn(setup.ns)(s.cluster, u.cluster) then 1 else 0) + EffectiveMoves(c, setup, u, ms)
  {
    assert ([m] + ms)[1..] == ms;
  }

  lemma MovesSplit(a: seq<Move>, b: seq<Move>)
    requires a != []
    ensures a + b == [a[0]] + (a[1..] + b) && a == [a[0]] + a[1..]
  {
  }

  lemma {:induction false} RunsOn(c: Config, setup: Setup, s: System, a: seq<Move>, m: System, b: seq<Move>, t: System)
    requires Runs(c, setup, s, a, m) && Runs(c, setup, m, b, t)
    ensures Runs(c, setup, s, a + b, t)
    ensures EffectiveMoves(c, setup, s, a + b) == EffectiveMoves(c, setup, s, a) + EffectiveMoves(c, setup, m, b)
    decreases |a|
  {
    if a == [] {
      assert a + b == b;
    } else {
      var u := CatalogLoop.Apply(c, setup, s, a[0]);
      MovesSplit(a, b);
      RunsOn(c, setup, u, a[1..], m, b, t);
      RunsCons(c, setup, s, a[0], a[1..] + b, t);
      RunsCons(c, setup, s, a[0], a[1..], m);
    }
  }

  lemma MakesOn(c: Config, setup: Setup, s: System, n: nat, m: System, k: nat, t: System)
    requires Makes(c, setup, s, n, m) && Makes(c, setup, m, k, t)
    ensures Makes(c, setup, s, n + k, t)
  {
    var a :| Runs(c, setup, s, a, m) && Accepted(a) && EffectiveMoves(c, setup, s, a) >= n;
    var b :| Runs(c, setup, m, b, t) && Accepted(b) && EffectiveMoves(c, setup, m, b) >= k;
    RunsOn(c, setup, s, a, m, b, t);
    assert Accepted(a + b);
  }

  lemma NoMoveMakes(c: Config, setup: Setup, s: System)
    ensures Makes(c, setup, s, 0, s)
  {
    assert Runs(c, setup, s, [], s) && Accepted([]);
  }

  lemma MoveMakes(c: Config, setup: Setup, s: System, m: Move)
    requires SteadyMove(c, setup, s, m) && (m.StampNext? ==> m.accepted)
    ensures var t := CatalogLoop.Apply(c, setup, s, m);
      Makes(c, setup, s, if WritesIn(setup.ns)(s.cluster, t.cluster) then 1 else 0, t)
  {
    var t := CatalogLoop.Apply(c, setup, s, m);
    assert [m][1..] == [] && Accepted([m]);
    assert Runs(c, setup, t, [], t);
    assert Runs(c, setup, s, [m], t);
    assert EffectiveMoves(c, setup, t, []) == 0;
  }

  lemma MakesLess(c: Config, setup: Setup, s: System, n: nat, less: nat, t: System)
    requires Makes(c, setup, s, n, t) && less <= n
    ensures Makes(c, setup, s, less, t)
  {
  }

  // ---------- what stays stored ----------

  lemma MoveGrows(c: Config, setup: Setup, s: System, m: Move)
    requires CatalogLoop.Enabled(c, setup, s, m)
    ensures Grows(s.cluster.envs, CatalogLoop.Apply(c, setup, s, m).cluster.envs)
  {
    MoveIsStep(c, setup, s, m);
    var l := LabelOf(c, setup, s, m);
    if l.Some? { StepGrows(c, s.cluster, l.value); }
  }

  lemma {:induction false} RunsGrow(c: Config, setup: Setup, s: System, ms: seq<Move>, t: System)
    requires Runs(c, setup, s, ms, t)
    ensures Grows(s.cluster.envs, t.cluster.envs)
    decreases |ms|
  {
    if ms != [] {
      MoveGrows(c, setup, s, ms[0]);
      RunsGrow(c, setup, CatalogLoop.Apply(c, setup, s, ms[0]), ms[1..], t);
    }
  }

  lemma DepsStaySeen(envs: map<Key, History>, more: map<Key, History>, key: Key, spec: EnvSpec)
    requires Grows(envs, more) && DepsSeenReady(envs, key, spec)
    ensures DepsSeenReady(more, key, spec)
  {
    forall name | name in spec.dependsOn ensures SeenReady(more, DepKey(key, name)) {
      var dep := DepKey(key, name);
      assert SeenReady(envs, dep);
      var i :| 0 <= i < |envs[dep]| && IsReady(envs[dep][i]);
      assert more[dep][i] == envs[dep][i];
    }
  }

  lemma MakesKeepsDeps(c: Config, setup: Setup, s: System, n: nat, t: System, key: Key, spec: EnvSpec)
    requires Makes(c, setup, s, n, t) && DepsSeenReady(s.cluster.envs, key, spec)
    ensures DepsSeenReady(t.cluster.envs, key, spec)
  {
    var ms :| Runs(c, setup, s, ms, t) && Accepted(ms) && EffectiveMoves(c, setup, s, ms) >= n;
    RunsGrow(c, setup, s, ms, t);
    DepsStaySeen(s.cluster.envs, t.cluster.envs, key, spec);
  }

  // ---------- the agent within the loop ----------

  /** The agents' steps write if what they leave differs, and queue every catalog if the readiness of an env of
      the namespace moves over them. */
  ghost predicate Lifted(setup: Setup, s: System, t: State, id: TaskId, u: System)
    requires id.key in s.cluster.envs
  {
    && u.cluster == t && u.passing == s.passing && s.queue <= u.queue && id.key in t.envs
    && (CatalogRollup.Passes(Current(s.cluster.envs[id.key]), Current(t.envs[id.key])) ==> setup.revisions.Keys <= u.queue)
  }

  ghost function Written(s: State, t: State, key: Key): nat { if EffectiveOn(s, t, key) then 1 else 0 }

  lemma {:induction false} LiftRun(c: Config, setup: Setup, s: System, ls: seq<Label>, t: State, id: TaskId) returns (u: System)
    requires Reaches(c, CalmOwn(setup, id), s.cluster, ls, t) && id.key in s.cluster.envs && id.key.ns == setup.ns
    ensures Lifted(setup, s, t, id, u) && Makes(c, setup, s, Written(s.cluster, t, id.key), u)
    decreases |ls|
  {
    if ls == [] {
      u := s;
      NoMoveMakes(c, setup, s);
    } else {
      var v := LiftStep(c, setup, s, ls[0], id);
      u := LiftRun(c, setup, v, ls[1..], t, id);
      MakesOn(c, setup, s, Written(s.cluster, v.cluster, id.key), v, Written(v.cluster, t, id.key), u);
      MakesLess(c, setup, s, Written(s.cluster, v.cluster, id.key) + Written(v.cluster, t, id.key), Written(s.cluster, t, id.key), u);
    }
  }

  lemma LiftStep(c: Config, setup: Setup, s: System, l: Label, id: TaskId) returns (u: System)
    requires EnvMachine.Enabled(c, s.cluster, l) && CalmOwn(setup, id)(s.cluster, l)
    requires id.key in s.cluster.envs && id.key.ns == setup.ns
    ensures u.cluster == EnvMachine.Apply(c, s.cluster, l)
    ensures Lifted(setup, s, u.cluster, id, u) && Makes(c, setup, s, Written(s.cluster, u.cluster, id.key), u)
  {
    var m := OfAgents(l);
    StepGrows(c, s.cluster, l);
    assert SteadyMove(c, setup, s, m);
    u := CatalogLoop.Apply(c, setup, s, m);
    MoveMakes(c, setup, s, m);
    assert EffectiveOn(s.cluster, u.cluster, id.key) ==> WritesIn(setup.ns)(s.cluster, u.cluster);
    MakesLess(c, setup, s, if WritesIn(setup.ns)(s.cluster, u.cluster) then 1 else 0, Written(s.cluster, u.cluster, id.key), u);
  }

  lemma LiftPath(c: Config, setup: Setup, s: System, t: State, id: TaskId) returns (u: System)
    requires Path(c, CalmOwn(setup, id), s.cluster, t) && id.key in s.cluster.envs && id.key.ns == setup.ns
    ensures Lifted(setup, s, t, id, u) && Makes(c, setup, s, Written(s.cluster, t, id.key), u)
  {
    var ls :| Reaches(c, CalmOwn(setup, id), s.cluster, ls, t);
    u := LiftRun(c, setup, s, ls, t, id);
  }

  // ---------- a pass of a catalog ----------

  lemma DistinctCons(x: Listed, rest: seq<Listed>)
    requires Distinct(rest) && forall y :: y in rest ==> y.key != x.key
    ensures Distinct([x] + rest)
  {
  }

  lemma {:induction false} ListingExists(ns: string, s: State, keys: set<Key>) returns (listing: seq<Listed>)
    requires forall k :: k in keys ==> k in s.envs && k.ns == ns
    ensures Distinct(listing)
    ensures forall x :: x in listing ==> x.key in keys && x.relock == Current(s.envs[x.key]).relock
    ensures forall k :: k in keys ==> Listed(k, Current(s.envs[k]).relock) in listing
    decreases |keys|
  {
    if keys == {} {
      listing := [];
    } else {
      var k :| k in keys;
      var rest := ListingExists(ns, s, keys - {k});
      listing := [Listed(k, Current(s.envs[k]).relock)] + rest;
      DistinctCons(Listed(k, Current(s.envs[k]).relock), rest);
    }
  }

  /** What a stamp does to an env: the annotation, and the agent's queue. */
  function Stamped(env: FloxEnv, mine: bool, revision: string): FloxEnv {
    if mine then env.(relock := revision) else env
  }

  lemma StampKeeps(c: Config, s: State, k: Key, revision: string, id: TaskId, env: FloxEnv, due: bool)
    requires EnvMachine.Enabled(c, s, EditRelock(k, revision)) && On(s, id, env, due) && id.node in c.nodes
    ensures var t := EnvMachine.Apply(c, s, EditRelock(k, revision));
      On(t, id, Stamped(env, k == id.key, revision), due || k == id.key)
  {
  }

  /** What the listing says of this env is what it still carries, unless it carries the revision by now. */
  predicate UpToDate(todo: seq<Listed>, key: Key, env: FloxEnv, revision: string) {
    forall x :: x in todo && x.key == key ==> x.relock == env.relock || env.relock == revision
  }

  /** The pass of this catalog is under way, on this rest. */
  ghost predicate Passing(setup: Setup, s: System, catalog: string, todo: seq<Listed>) {
    && catalog in setup.revisions && setup.revisions[catalog] != ""
    && catalog in s.passing && s.passing[catalog] == todo
    && forall x :: x in todo ==> x.key in s.cluster.envs
  }

  lemma StampOne(c: Config, setup: Setup, s: System, catalog: string, todo: seq<Listed>, id: TaskId, env: FloxEnv, due: bool)
    returns (t: System, after: FloxEnv)
    requires Passing(setup, s, catalog, todo) && todo != [] && On(s.cluster, id, env, due) && id.node in c.nodes && id.key.ns == setup.ns
    requires UpToDate(todo, id.key, env, setup.revisions[catalog])
    ensures var revision := setup.revisions[catalog]; var moved := todo[0].key == id.key && env.relock != revision;
      && after == Stamped(env, moved, revision) && On(t.cluster, id, after, due || moved)
      && Makes(c, setup, s, if moved then 1 else 0, t)
    ensures Passing(setup, t, catalog, todo[1..]) && t.queue == s.queue && t.passing == s.passing[catalog := todo[1..]]
  {
    var revision, x := setup.revisions[catalog], todo[0];
    var m := Move.StampNext(catalog, true);
    var l := LabelOf(c, setup, s, m);
    t := CatalogLoop.Apply(c, setup, s, m);
    assert SteadyMove(c, setup, s, m);
    MoveMakes(c, setup, s, m);
    if l.Some? {
      StampsWakeNobody(c, setup, s.cluster, l.value);
      StampKeeps(c, s.cluster, x.key, revision, id, env, due);
    } else {
      assert t.cluster == s.cluster && Woken(setup, s.cluster, t.cluster) == {};
    }
    var moved := x.key == id.key && env.relock != revision;
    after := Stamped(env, moved, revision);
    assert moved ==> EffectiveOn(s.cluster, t.cluster, id.key);
    MakesLess(c, setup, s, if WritesIn(setup.ns)(s.cluster, t.cluster) then 1 else 0, if moved then 1 else 0, t);
  }

  /** The rest of a pass, nothing refused: it leaves the env at the revision if it visits it. */
  lemma {:induction false} PassRest(
    c: Config, setup: Setup, s: System, catalog: string, todo: seq<Listed>, id: TaskId, env: FloxEnv, due: bool) returns (t: System)
    requires Passing(setup, s, catalog, todo) && On(s.cluster, id, env, due) && id.node in c.nodes && id.key.ns == setup.ns
    requires UpToDate(todo, id.key, env, setup.revisions[catalog])
    ensures var revision := setup.revisions[catalog]; var moved := Visits(todo, id.key) && env.relock != revision;
      && On(t.cluster, id, Stamped(env, moved, revision), due || moved)
      && Makes(c, setup, s, if moved then 1 else 0, t)
    ensures t.queue == s.queue && t.passing == s.passing - {catalog}
    decreases |todo|
  {
    if todo == [] {
      t := PassEnds(c, setup, s, catalog);
    } else {
      var revision := setup.revisions[catalog];
      var moved := todo[0].key == id.key && env.relock != revision;
      var v, after := StampOne(c, setup, s, catalog, todo, id, env, due);
      VisitsFirst(todo, id.key);
      var later := Visits(todo[1..], id.key) && after.relock != revision;
      t := PassRest(c, setup, v, catalog, todo[1..], id, after, due || moved);
      MakesOn(c, setup, s, if moved then 1 else 0, v, if later then 1 else 0, t);
    }
  }

  lemma VisitsFirst(todo: seq<Listed>, key: Key)
    requires todo != []
    ensures Visits(todo, key) <==> todo[0].key == key || Visits(todo[1..], key)
  {
    assert todo == [todo[0]] + todo[1..];
  }

  lemma PassEnds(c: Config, setup: Setup, s: System, catalog: string) returns (t: System)
    requires catalog in s.passing && s.passing[catalog] == []
    ensures Makes(c, setup, s, 0, t) && t == System(s.cluster, s.queue, s.passing - {catalog})
  {
    var m := End(catalog);
    t := CatalogLoop.Apply(c, setup, s, m);
    assert SteadyMove(c, setup, s, m);
    MoveMakes(c, setup, s, m);
    MakesLess(c, setup, s, if WritesIn(setup.ns)(s.cluster, t.cluster) then 1 else 0, 0, t);
  }

  lemma Begins(c: Config, setup: Setup, s: System, catalog: string, key: Key) returns (listing: seq<Listed>, t: System)
    requires catalog in setup.revisions && setup.revisions[catalog] != "" && catalog in s.queue && catalog !in s.passing
    requires key in s.cluster.envs && key.ns == setup.ns
    ensures t == System(s.cluster, s.queue - {catalog}, s.passing[catalog := listing])
    ensures Makes(c, setup, s, 0, t) && Passing(setup, t, catalog, listing) && Visits(listing, key)
    ensures forall x :: x in listing ==> x.relock == Current(s.cluster.envs[x.key]).relock
  {
    var keys := KeysOf(setup.ns, s.cluster);
    listing := ListingExists(setup.ns, s.cluster, keys);
    var m := Begin(catalog, listing);
    assert Listed(key, Current(s.cluster.envs[key]).relock) in listing;
    assert SteadyMove(c, setup, s, m);
    t := CatalogLoop.Apply(c, setup, s, m);
    MoveMakes(c, setup, s, m);
    MakesLess(c, setup, s, if WritesIn(setup.ns)(s.cluster, t.cluster) then 1 else 0, 0, t);
  }

  /** A queued catalog passes. */
  lemma Pass(c: Config, setup: Setup, s: System, catalog: string, id: TaskId, env: FloxEnv, due: bool) returns (t: System)
    requires catalog in setup.revisions && setup.revisions[catalog] != "" && catalog in s.queue && catalog !in s.passing
    requires On(s.cluster, id, env, due) && id.node in c.nodes && id.key.ns == setup.ns
    ensures var revision := setup.revisions[catalog];
      && On(t.cluster, id, env.(relock := revision), due || env.relock != revision)
      && Makes(c, setup, s, if env.relock != revision then 1 else 0, t)
    ensures t.queue == s.queue - {catalog} && t.passing == s.passing
  {
    var revision := setup.revisions[catalog];
    var listing, v := Begins(c, setup, s, catalog, id.key);
    t := PassRest(c, setup, v, catalog, listing, id, env, due);
    MakesOn(c, setup, s, 0, v, if env.relock != revision then 1 else 0, t);
    assert t.passing == s.passing;
    assert env.relock == revision ==> env.(relock := revision) == env;
  }

  // ---------- the start ----------

  /** The loop as it starts: the agent has restarted, nothing is in flight, every catalog is queued. */
  ghost predicate Starts(setup: Setup, s: System, node: string) {
    Restarted(s.cluster, node) && Occupied(s.cluster, node) == 0 && s.passing == map[] && setup.revisions.Keys <= s.queue
  }

  /** First touch, if it has not happened. */
  lemma FirstTouch(c: Config, setup: Setup, s: System, id: TaskId, env: FloxEnv) returns (t: System, after: FloxEnv)
    requires id.node in c.nodes && id.key.ns == setup.ns && On(s.cluster, id, env, true) && s.passing == map[]
    ensures Makes(c, setup, s, 0, t) && On(t.cluster, id, after, true) && t.passing == map[] && s.queue <= t.queue
    ensures after == env.(status := env.status.(ready := after.status.ready)) && after.status.ready.Some?
  {
    if env.status.ready.Some? {
      t, after := s, env;
      NoMoveMakes(c, setup, s);
    } else {
      var envs, workloads := Objects(s.cluster), s.cluster.workloads;
      assert envs[id.key] == env;
      var m := CalmFetch(c, setup, s.cluster, id, envs, workloads);
      InEnvs(m, id, envs);
      var n := CalmStep(c, setup, m, id, PublishPending(true), envs, workloads, Fetched(env), 0, false);
      PathsCompose(c, CalmOwn(setup, id), s.cluster, m, n);
      after := env.(status := WithReady(env, False, PENDING, "queued for realisation"));
      InEnvs(n, id, envs[id.key := after]);
      t := LiftPath(c, setup, s, n, id);
      MakesLess(c, setup, s, Written(s.cluster, n, id.key), 0, t);
    }
  }
}

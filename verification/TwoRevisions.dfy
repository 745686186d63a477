/** Two catalogs of one namespace at different revisions never settle where an env can be built: each stamps
    its revision, the agent builds, and the readiness the build moves queues them both again. */
module TwoRevisions {
  import opened FloxApi
  import opened EnvStatusRecord
  import opened EnvMachine
  import opened ReconcileRun
  import opened CatalogLoop
  import opened LoopRuns
  import CatalogRollup

  // ---------- one build ----------

  /** The Get of a dependency, of a version that was Ready. */
  lemma CalmCheck(
    c: Config, setup: Setup, s: State, id: TaskId, envs: Envs, workloads: ConsumerRolls.Workloads, env: FloxEnv, n: nat) returns (t: State)
    requires id.node in c.nodes && id.key in envs && n < |env.spec.dependsOn|
    requires At(s, id, envs, workloads, Some(CheckingDeps(env, n, [])), 0, false) && DepsSeenReady(s.envs, id.key, env.spec)
    ensures Path(c, CalmOwn(setup, id), s, t) && Grows(s.envs, t.envs)
    ensures At(t, id, envs, workloads, Some(CheckingDeps(env, n + 1, [])), 0, false)
  {
    InEnvs(s, id, envs);
    var version := SeenVersion(c, s, id, env, n);
    t := CalmStep(c, setup, s, id, CheckDep(Some(version)), envs, workloads, CheckingDeps(env, n, []), 0, false);
  }

  lemma SeenVersion(c: Config, s: State, id: TaskId, env: FloxEnv, n: nat) returns (version: nat)
    requires n < |env.spec.dependsOn| && DepsSeenReady(s.envs, id.key, env.spec) && id.key in s.envs
    ensures var task, a := CheckingDeps(env, n, []), CheckDep(Some(version));
      TaskEnabled(c, s, id, task, a) && ActOn(c, s, id, task, s.envs[id.key], a) == GoTo(CheckingDeps(env, n + 1, []))
  {
    var dep := DepKey(id.key, env.spec.dependsOn[n]);
    assert SeenReady(s.envs, dep);
    version :| 0 <= version < |s.envs[dep]| && IsReady(s.envs[dep][version]);
  }

  /** One Get per dependency. */
  lemma {:induction false} CalmChecks(
    c: Config, setup: Setup, s: State, id: TaskId, envs: Envs, workloads: ConsumerRolls.Workloads, env: FloxEnv, n: nat) returns (t: State)
    requires id.node in c.nodes && id.key in envs && n <= |env.spec.dependsOn|
    requires At(s, id, envs, workloads, Some(CheckingDeps(env, n, [])), 0, false) && DepsSeenReady(s.envs, id.key, env.spec)
    ensures Path(c, CalmOwn(setup, id), s, t)
    ensures At(t, id, envs, workloads, Some(CheckingDeps(env, |env.spec.dependsOn|, [])), 0, false)
    decreases |env.spec.dependsOn| - n
  {
    var names := env.spec.dependsOn;
    if n == |names| {
      t := s;
      NoStepIsAPath(c, CalmOwn(setup, id), s);
    } else {
      var m := CalmCheck(c, setup, s, id, envs, workloads, env, n);
      DepsStaySeen(s.envs, m.envs, id.key, env.spec);
      t := CalmChecks(c, setup, m, id, envs, workloads, env, n + 1);
      PathsCompose(c, CalmOwn(setup, id), s, m, t);
    }
  }

  /** From the queue to the dependencies. */
  lemma ToDeps(c: Config, setup: Setup, s: State, id: TaskId, envs: Envs, workloads: ConsumerRolls.Workloads) returns (t: State)
    requires id.node in c.nodes && id.key in envs && At(s, id, envs, workloads, None, 0, true)
    requires var env := envs[id.key];
      env.status.ready.Some? && Forced(env) && GetsThrough(setup, env.spec) && DepsSeenReady(s.envs, id.key, env.spec)
    ensures Path(c, CalmOwn(setup, id), s, t)
    ensures At(t, id, envs, workloads, Some(CheckingDeps(envs[id.key], |envs[id.key].spec.dependsOn|, [])), 0, false)
  {
    var env := envs[id.key];
    var ok := CalmOwn(setup, id);
    var s1 := CalmFetch(c, setup, s, id, envs, workloads);
    InEnvs(s1, id, envs);
    DepsStaySeen(s.envs, s1.envs, id.key, env.spec);
    var s2 := CalmStep(c, setup, s1, id, ManifestReady, envs, workloads, Fetched(env), 0, false);
    DepsStaySeen(s1.envs, s2.envs, id.key, env.spec);
    t := CalmChecks(c, setup, s2, id, envs, workloads, env, 0);
    PathsCompose(c, ok, s, s1, s2);
    PathsCompose(c, ok, s, s2, t);
  }

  /** From the dependencies to the slot. */
  lemma ToSlot(c: Config, setup: Setup, s: State, id: TaskId, envs: Envs, workloads: ConsumerRolls.Workloads) returns (t: State)
    requires id.node in c.nodes && id.key in envs
    requires At(s, id, envs, workloads, Some(CheckingDeps(envs[id.key], |envs[id.key].spec.dependsOn|, [])), 0, false)
    ensures Path(c, CalmOwn(setup, id), s, t) && At(t, id, envs, workloads, Some(HoldingSlot(envs[id.key])), 1, false)
  {
    var env := envs[id.key];
    InEnvs(s, id, envs);
    var m := CalmStep(c, setup, s, id, DepsMet, envs, workloads, CheckingDeps(env, |env.spec.dependsOn|, []), 0, false);
    InEnvs(m, id, envs);
    t := CalmStep(c, setup, m, id, Acquire, envs, workloads, AwaitingSlot(env), 0, false);
    PathsCompose(c, CalmOwn(setup, id), s, m, t);
  }

  /** From the queue to the running build. */
  lemma ToBuild(c: Config, setup: Setup, s: State, id: TaskId, envs: Envs, workloads: ConsumerRolls.Workloads) returns (t: State)
    requires id.node in c.nodes && id.key in envs && At(s, id, envs, workloads, None, 0, true)
    requires var env := envs[id.key];
      env.status.ready.Some? && Forced(env) && GetsThrough(setup, env.spec) && DepsSeenReady(s.envs, id.key, env.spec)
    ensures Path(c, CalmOwn(setup, id), s, t)
    ensures var view := envs[id.key].(status := RealizingStatus(id.node, envs[id.key]));
      At(t, id, envs[id.key := view], workloads, Some(Building(envs[id.key], view)), 1, false)
  {
    var env := envs[id.key];
    var view := env.(status := RealizingStatus(id.node, env));
    var a := ToDeps(c, setup, s, id, envs, workloads);
    var b := ToSlot(c, setup, a, id, envs, workloads);
    var d := CalmAnnounce(c, setup, b, id, envs, workloads);
    InEnvs(d, id, envs[id.key := view]);
    t := CalmStep(c, setup, d, id, StartRealize, envs[id.key := view], workloads, Announced(env, view), 1, false);
    PathsCompose(c, CalmOwn(setup, id), s, a, b);
    PathsCompose(c, CalmOwn(setup, id), s, b, d);
    PathsCompose(c, CalmOwn(setup, id), s, d, t);
  }

  const BUILD := RealizeResult("/nix/store/x", "", "", "")

  /** What the build leaves: Ready, and the annotation honoured. */
  function Built(node: string, env: FloxEnv): FloxEnv {
    var view := env.(status := RealizingStatus(node, env));
    env.(status := CommittedStatus(node, env, view, BUILD))
  }

  lemma ToCommit(c: Config, setup: Setup, s: State, id: TaskId, envs: Envs, env: FloxEnv, workloads: ConsumerRolls.Workloads) returns (t: State)
    requires id.node in c.nodes && id.key in envs && envs[id.key] == env.(status := RealizingStatus(id.node, env))
    requires At(s, id, envs, workloads, Some(Building(env, envs[id.key])), 1, false)
    ensures Path(c, CalmOwn(setup, id), s, t)
    ensures At(t, id, envs[id.key := Built(id.node, env)], workloads, None, 0, false)
  {
    var view := envs[id.key];
    InEnvs(s, id, envs);
    var m := CalmStep(c, setup, s, id, FinishRealize(BUILD), envs, workloads, Building(env, view), 1, false);
    InEnvs(m, id, envs);
    t := CalmStep(c, setup, m, id, Commit(true), envs, workloads, Task.Built(env, view, BUILD), 1, false);
    PathsCompose(c, CalmOwn(setup, id), s, m, t);
  }

  // ---------- rounds ----------

  /** The env is queued, can be built, carries this revision and has not honoured it. */
  ghost predicate Pending(setup: Setup, s: System, id: TaskId, env: FloxEnv, revision: string) {
    && On(s.cluster, id, env, true) && s.passing == map[]
    && env.status.ready.Some? && env.relock == revision != env.status.relockToken
    && GetsThrough(setup, env.spec) && DepsSeenReady(s.cluster.envs, id.key, env.spec)
  }

  lemma Build(c: Config, setup: Setup, s: System, id: TaskId, env: FloxEnv, revision: string) returns (t: System)
    requires id.node in c.nodes && id.key.ns == setup.ns && Pending(setup, s, id, env, revision)
    ensures Makes(c, setup, s, 0, t) && On(t.cluster, id, Built(id.node, env), false)
    ensures t.passing == map[] && setup.revisions.Keys <= t.queue
  {
    var envs, workloads := Objects(s.cluster), s.cluster.workloads;
    var view := env.(status := RealizingStatus(id.node, env));
    assert envs[id.key] == env;
    var m := ToBuild(c, setup, s.cluster, id, envs, workloads);
    var u := LiftPath(c, setup, s, m, id);
    InEnvs(m, id, envs[id.key := view]);
    var n := ToCommit(c, setup, m, id, envs[id.key := view], env, workloads);
    InEnvs(n, id, envs[id.key := view][id.key := Built(id.node, env)]);
    CatalogRollup.ReadinessIsFaithful(view, Built(id.node, env));
    t := LiftPath(c, setup, u, n, id);
    MakesOn(c, setup, s, Written(s.cluster, m, id.key), u, Written(m, n, id.key), t);
    MakesLess(c, setup, s, Written(s.cluster, m, id.key) + Written(m, n, id.key), 0, t);
  }

  predicate Disagree(setup: Setup, a: string, b: string) {
    && a in setup.revisions && b in setup.revisions
    && setup.revisions[a] != "" && setup.revisions[b] != "" && setup.revisions[a] != setup.revisions[b]
  }

  /** A build at one revision, then the pass of the catalog that has it, then that of the other. */
  lemma Round(c: Config, setup: Setup, s: System, id: TaskId, env: FloxEnv, a: string, b: string) returns (t: System, after: FloxEnv)
    requires id.node in c.nodes && id.key.ns == setup.ns && Disagree(setup, a, b)
    requires Pending(setup, s, id, env, setup.revisions[a])
    ensures Makes(c, setup, s, 1, t) && Pending(setup, t, id, after, setup.revisions[b])
  {
    var built := Built(id.node, env);
    var u := Build(c, setup, s, id, env, setup.revisions[a]);
    var v := Pass(c, setup, u, a, id, built, false);
    t := Pass(c, setup, v, b, id, built.(relock := setup.revisions[a]), false);
    after := built.(relock := setup.revisions[b]);
    MakesOn(c, setup, s, 0, u, 0, v);
    MakesOn(c, setup, s, 0, v, 1, t);
    MakesKeepsDeps(c, setup, s, 1, t, id.key, env.spec);
  }

  lemma {:induction false} Rounds(c: Config, setup: Setup, s: System, id: TaskId, env: FloxEnv, a: string, b: string, n: nat)
    returns (t: System)
    requires id.node in c.nodes && id.key.ns == setup.ns && Disagree(setup, a, b)
    requires Pending(setup, s, id, env, setup.revisions[a])
    ensures Makes(c, setup, s, n, t)
    decreases n
  {
    if n == 0 {
      t := s;
      NoMoveMakes(c, setup, s);
    } else {
      var m, after := Round(c, setup, s, id, env, a, b);
      t := Rounds(c, setup, m, id, after, b, a, n - 1);
      MakesOn(c, setup, s, 1, m, n - 1, t);
    }
  }

  /** With two revisions, and an env whose manifest gets through and whose dependencies may be found Ready, runs
      make any number of effective writes, without a failure, a crash or an edit. */
  lemma TwoRevisionsNeverSettle(c: Config, node: string, setup: Setup, s: System, key: Key, a: string, b: string, n: nat)
    returns (t: System)
    requires c.nodes == {node} && Starts(setup, s, node) && Disagree(setup, a, b)
    requires key in s.cluster.envs && key.ns == setup.ns && CanBuild(setup, s.cluster, key)
    ensures Makes(c, setup, s, n, t)
  {
    var id, env := TaskId(node, key), Current(s.cluster.envs[key]);
    var m, touched := FirstTouch(c, setup, s, id, env);
    var first, second := a, b;
    if setup.revisions[a] == env.status.relockToken { first, second := b, a; }
    var v := Pass(c, setup, m, first, id, touched, true);
    MakesOn(c, setup, s, 0, m, if touched.relock != setup.revisions[first] then 1 else 0, v);
    MakesLess(c, setup, s, if touched.relock != setup.revisions[first] then 1 else 0, 0, v);
    MakesKeepsDeps(c, setup, s, 0, v, key, env.spec);
    t := Rounds(c, setup, v, id, touched.(relock := setup.revisions[first]), first, second, n);
    MakesOn(c, setup, s, 0, v, n, t);
  }
}

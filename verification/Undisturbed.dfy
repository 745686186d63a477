/** Undisturbed reconciles of an env without dependencies and without catalog references, as building blocks
    of concrete runs. */
module Undisturbed {
  import opened FloxApi
  import opened EnvStatusRecord
  import opened FlakeInstalls
  import opened EnvMachine
  import opened EnvReconcile
  import opened ReconcileRun
  import ConsumerRolls

  /** Nothing fails but perhaps the build, and there are no workloads. */
  function Calls(c: Config, made: Option<RealizeResult>): World {
    World(true, k => ReadFailed, m => true, true, r => made, Some([]), Some([]), Some([]), w => true, c.digest, true, true)
  }

  const NO_REFUSAL := Refusal(SERIALIZE_FAILED, "")

  predicate Plain(spec: EnvSpec) { spec.dependsOn == [] && spec.manifest == map[] }

  function AnnouncedEnv(node: string, env: FloxEnv): FloxEnv { env.(status := RealizingStatus(node, env)) }

  function CommittedEnv(node: string, env: FloxEnv, result: RealizeResult): FloxEnv {
    env.(status := CommittedStatus(node, env, AnnouncedEnv(node, env), result))
  }

  lemma TouchMakes(node: string, envs: Envs, workloads: ConsumerRolls.Workloads, key: Key, w: World)
    requires key in envs && envs[key].status.ready.None? && w.first
    ensures AfterReconcile(node, envs, workloads, key, NO_REFUSAL, w)
            == Result(envs[key := envs[key].(status := WithReady(envs[key], False, PENDING, "queued for realisation"))], workloads, Requeue)
  {
  }

  lemma BuildMakes(node: string, envs: Envs, workloads: ConsumerRolls.Workloads, key: Key, c: Config, made: Option<RealizeResult>)
    requires key in envs && envs[key].status.ready.Some? && !AlreadyRealized(node, envs[key]) && Plain(envs[key].spec)
    ensures var env := envs[key];
      AfterReconcile(node, envs, workloads, key, NO_REFUSAL, Calls(c, made)) ==
      match made
      case None =>
        Result(envs[key := env.(status := NotReady(AnnouncedEnv(node, env), REALIZE_FAILED, "realize failed"))], workloads, Error)
      case Some(result) => Result(envs[key := CommittedEnv(node, env, result)], workloads, Done)
  {
    var env, w := envs[key], Calls(c, made);
    assert InstallTable(env.spec.manifest) == map[];
    assert AllResolve(key.ns, w.catalogs, env.spec.manifest);
    assert Unmet(envs, key, env.spec.dependsOn) == [];
    var announced := envs[key := AnnouncedEnv(node, env)];
    assert PatchStatus(envs, key, env.status, RealizingStatus(node, env), true) == announced;
    match made
    case None =>
    case Some(result) => NobodyRolls(workloads, w, Coordinate(key, AnnouncedEnv(node, env)), result.lock);
  }

  lemma NobodyRolls(workloads: ConsumerRolls.Workloads, w: World, target: EnvRef, lock: string)
    requires w.deployments == Some([]) && w.daemonSets == Some([]) && w.statefulSets == Some([])
    ensures RollSucceeds(w, target, lock) && AfterRoll(workloads, w, target, lock) == workloads
  {
    var none: seq<ConsumerRolls.Listed> := [] + [] + [];
    assert none == [];
    assert ConsumerRolls.Patched(none, target, w.digest(lock), w.accepts) == {};
    assert ConsumerRolls.StampAll(workloads, {}, w.digest(lock)) == workloads;
  }

  /** A first touch leaves the key queued. */
  lemma Touch(c: Config, s: State, id: TaskId, env: FloxEnv) returns (t: State)
    requires id.node in c.nodes && On(s, id, env, true) && env.status.ready.None?
    ensures Leads(c, id, s, t) && On(t, id, env.(status := WithReady(env, False, PENDING, "queued for realisation")), true)
  {
    var envs := Objects(s);
    assert envs[id.key] == env;
    TouchMakes(id.node, envs, s.workloads, id.key, Calls(c, None));
    t := ReconcileIsARun(c, s, id, envs, s.workloads, NO_REFUSAL, Calls(c, None), 0);
    assert Objects(t)[id.key] == env.(status := WithReady(env, False, PENDING, "queued for realisation"));
  }

  /** A build that succeeds leaves nothing queued; one that fails leaves the key queued. */
  lemma Build(c: Config, s: State, id: TaskId, env: FloxEnv, made: Option<RealizeResult>) returns (t: State)
    requires id.node in c.nodes && On(s, id, env, true)
    requires env.status.ready.Some? && !AlreadyRealized(id.node, env) && Plain(env.spec)
    ensures Leads(c, id, s, t)
    ensures match made
            case None => On(t, id, env.(status := NotReady(AnnouncedEnv(id.node, env), REALIZE_FAILED, "realize failed")), true)
            case Some(result) => On(t, id, CommittedEnv(id.node, env, result), false)
  {
    var envs := Objects(s);
    assert envs[id.key] == env;
    BuildMakes(id.node, envs, s.workloads, id.key, c, made);
    t := ReconcileIsARun(c, s, id, envs, s.workloads, NO_REFUSAL, Calls(c, made), 0);
    assert Objects(t).Keys == t.envs.Keys;
  }

  /** A reconcile of an env that is already realised leaves it as it is. */
  lemma Nothing(c: Config, s: State, id: TaskId, env: FloxEnv) returns (t: State)
    requires id.node in c.nodes && On(s, id, env, true) && env.status.ready.Some? && AlreadyRealized(id.node, env)
    ensures Leads(c, id, s, t) && On(t, id, env, false)
  {
    var envs := Objects(s);
    assert envs[id.key] == env;
    t := ReconcileIsARun(c, s, id, envs, s.workloads, NO_REFUSAL, Calls(c, None), 0);
    assert Objects(t).Keys == t.envs.Keys;
  }
}

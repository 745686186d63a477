/** An env with an install entry that waits for its catalog and another one that fails: each reconcile reports
    whichever it meets first, so its readiness may move at every retry, for ever. */
module FlappingEnv {
  import opened FloxApi
  import opened EnvStatusRecord
  import opened EnvMachine
  import opened FlakeInstalls
  import opened ReconcileRun
  import opened Quiescence
  import opened CatalogLoop
  import opened LoopRuns
  import EnvReconcile
  import SingleAgent

  /** The env is queued, its first touch is over, the agent has not realised it, and it has both reasons. */
  ghost predicate Refused(setup: Setup, s: System, id: TaskId, env: FloxEnv) {
    && On(s.cluster, id, env, true) && s.passing == map[]
    && env.status.ready.Some? && !AlreadyRealized(id.node, env) && TwoReasons(setup, env.spec)
  }

  /** The reason it was not refused for last. */
  function OtherReason(env: FloxEnv): string
    requires env.status.ready.Some?
  {
    if env.status.ready.value.reason == WAITING_FOR_FLAKE then FLAKE_RESOLVE_FAILED else WAITING_FOR_FLAKE
  }

  /** A retry that meets the other entry first. */
  lemma Retry(c: Config, setup: Setup, s: System, id: TaskId, env: FloxEnv) returns (t: System, after: FloxEnv)
    requires id.node in c.nodes && id.key.ns == setup.ns && Refused(setup, s, id, env)
    ensures Makes(c, setup, s, 1, t) && Refused(setup, t, id, after)
  {
    var envs, workloads := Objects(s.cluster), s.cluster.workloads;
    var reason := OtherReason(env);
    assert |WAITING_FOR_FLAKE| != |FLAKE_RESOLVE_FAILED|;
    assert envs[id.key] == env;
    var m := CalmFetch(c, setup, s.cluster, id, envs, workloads);
    InEnvs(m, id, envs);
    var n := CalmStep(c, setup, m, id, Refuse(reason, "", true), envs, workloads, Fetched(env), 0, false);
    after := env.(status := WithReady(env, False, reason, ""));
    InEnvs(n, id, envs[id.key := after]);
    PathsCompose(c, CalmOwn(setup, id), s.cluster, m, n);
    t := LiftPath(c, setup, s, n, id);
    assert EffectiveOn(s.cluster, n, id.key);
  }

  lemma {:induction false} Retries(c: Config, setup: Setup, s: System, id: TaskId, env: FloxEnv, n: nat) returns (t: System)
    requires id.node in c.nodes && id.key.ns == setup.ns && Refused(setup, s, id, env)
    ensures Makes(c, setup, s, n, t)
    decreases n
  {
    if n == 0 {
      t := s;
      NoMoveMakes(c, setup, s);
    } else {
      var m, after := Retry(c, setup, s, id, env);
      t := Retries(c, setup, m, id, after, n - 1);
      MakesOn(c, setup, s, 1, m, n - 1, t);
    }
  }

  /** If the agent had realised the env, the stamp of another revision makes it try again. */
  lemma Roused(c: Config, setup: Setup, s: System, id: TaskId, env: FloxEnv) returns (t: System, after: FloxEnv)
    requires id.node in c.nodes && id.key.ns == setup.ns && On(s.cluster, id, env, true) && s.passing == map[]
    requires setup.revisions.Keys <= s.queue && env.status.ready.Some? && Flaps(setup, id, env)
    ensures Makes(c, setup, s, 0, t) && Refused(setup, t, id, after)
  {
    if AlreadyRealized(id.node, env) {
      var name :| name in setup.revisions && setup.revisions[name] != "" && setup.revisions[name] != env.relock;
      t := Pass(c, setup, s, name, id, env, true);
      after := env.(relock := setup.revisions[name]);
      MakesLess(c, setup, s, 1, 0, t);
    } else {
      t, after := s, env;
      NoMoveMakes(c, setup, s);
    }
  }

  /** At any revisions, runs make any number of effective writes, without a failure, a crash or an edit. */
  lemma FlappingNeverSettles(c: Config, node: string, setup: Setup, s: System, key: Key, n: nat) returns (t: System)
    requires c.nodes == {node} && Starts(setup, s, node)
    requires key in s.cluster.envs && key.ns == setup.ns && Flaps(setup, TaskId(node, key), Current(s.cluster.envs[key]))
    ensures Makes(c, setup, s, n, t)
  {
    var id, env := TaskId(node, key), Current(s.cluster.envs[key]);
    var u, touched := FirstTouch(c, setup, s, id, env);
    var v, roused := Roused(c, setup, u, id, touched);
    t := Retries(c, setup, v, id, roused, n);
    MakesOn(c, setup, s, 0, u, 0, v);
    MakesOn(c, setup, s, 0, v, n, t);
  }

  // ---------- from a fresh cluster ----------

  const SLOW := CatalogRef("", "slow", "")
  const GONE := CatalogRef("", "gone", "")

  function Install(ref: CatalogRef): Value { Table(map["flake" := Text(PrintCatalogRef(ref))]) }

  const SPEC := EnvSpec("", [], map["install" := Table(map["slow" := Install(SLOW), "gone" := Install(GONE)])])
  const CREATED := FloxEnv(1, SPEC, "", EnvStatus(None, "", "", []))

  /** One catalog that has resolved, one that has not, and no other. */
  const SETUP := Setup(
    SingleAgent.ENV.ns, map["good" := "1", "slow" := ""], spec => true,
    (key: Key) => if key.name == "good" then Found("tarball+http://good") else if key.name == "slow" then Found("") else NotFound,
    manifest => true)

  const START := System(SingleAgent.At([CREATED], map[], {SingleAgent.AGENT}, map[], []), {"good", "slow"}, map[])

  /** What becomes of an entry that names a catalog of the env's own namespace. */
  lemma OutcomeOf(setup: Setup, ref: CatalogRef)
    requires WellFormed(ref) && ref.namespace == "" && ref.output == ""
    ensures ResolveEntry(setup.ns, setup.catalogs, Install(ref)) ==
            match setup.catalogs(Key(setup.ns, ref.name))
            case NotFound => Fail(CatalogNotFound)
            case ReadFailed => Fail(CatalogUnreadable)
            case Found(flakeRef) => if flakeRef == "" then Wait else Keep(Table(map["flake" := Text(flakeRef)]))
  {
    CatalogRefRoundTrip(ref);
    var entry := Install(ref);
    assert HasPrefix(PrintCatalogRef(ref), SCHEME);
    assert SchemeRef(entry) == Some(PrintCatalogRef(ref));
    assert forall text :: entry.fields["flake" := Text(text)] == map["flake" := Text(text)];
  }

  lemma Names()
    ensures WellFormed(SLOW) && WellFormed(GONE)
    ensures SETUP.catalogs(Key(SETUP.ns, SLOW.name)) == Found("") && SETUP.catalogs(Key(SETUP.ns, GONE.name)) == NotFound
  {
    assert |"good"| == |"slow"| && "good"[0] != "slow"[0] && "gone"[2] != "good"[2] && "gone"[0] != "slow"[0];
  }

  lemma BothReasons()
    ensures TwoReasons(SETUP, SPEC)
  {
    Names();
    OutcomeOf(SETUP, SLOW);
    OutcomeOf(SETUP, GONE);
    var install := InstallTable(SPEC.manifest);
    assert install["slow"] == Install(SLOW) && install["gone"] == Install(GONE);
    assert !AllResolve(SETUP.ns, SETUP.catalogs, SPEC.manifest);
    assert EnvReconcile.Reports(WAITING_FOR_FLAKE, SETUP.ns, SETUP.catalogs, SPEC.manifest);
    assert EnvReconcile.Reports(FLAKE_RESOLVE_FAILED, SETUP.ns, SETUP.catalogs, SPEC.manifest);
  }

  lemma StartIsFresh(c: Config)
    requires SingleAgent.OneAgent(c)
    ensures Fresh(c, START.cluster) && Starts(SETUP, START, SingleAgent.NODE)
    ensures SingleAgent.ENV in START.cluster.envs && Current(START.cluster.envs[SingleAgent.ENV]) == CREATED
  {
  }

  /** From a fresh cluster with one env and one revision: runs of any number of effective writes. */
  lemma FreshEnvFlaps(c: Config, n: nat) returns (t: System)
    requires SingleAgent.OneAgent(c)
    ensures Fresh(c, START.cluster) && OneRevision(SETUP, "1") && Makes(c, SETUP, START, n, t)
  {
    BothReasons();
    StartIsFresh(c);
    t := FlappingNeverSettles(c, SingleAgent.NODE, SETUP, START, SingleAgent.ENV, n);
  }
}

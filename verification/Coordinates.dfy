/** One coordinate for all who speak of an env: the gate that resolves a reference, the wake-ups of its waiters,
    the build that is asked for and the roll that follows it. An env without a folder goes by its namespace. */
module Coordinates {
  import opened FloxApi
  import opened EnvRefs
  import opened PodGate
  import opened GateWakeups
  import EnvMachine
  import EnvReconcile
  import ConsumerRolls
  import LostEdit
  import SingleAgent

  /** Alone in a listing, an env is found under its folder and name, or under its namespace and name, and under
      nothing else. */
  lemma FoundUnder(key: Key, env: FloxEnv, target: EnvRef)
    ensures env.spec.folder == "" ==> (FindEnv([NamedEnv(key, env)], target).Some? <==> target == EnvRef(key.ns, key.name))
    ensures env.spec.folder != "" ==> (FindEnv([NamedEnv(key, env)], target).Some? <==> target == EnvRef(env.spec.folder, key.name))
  {
    assert [NamedEnv(key, env)][1..] == [];
  }

  /** An entry of this node, ready and of the env's generation. */
  predicate RealizedOn(env: FloxEnv, node: string) {
    exists i :: 0 <= i < |env.status.realized| && env.status.realized[i].node == node
                && env.status.realized[i].ready && env.status.realized[i].observed == env.generation
  }

  lemma RealizedIsReady(env: FloxEnv, node: string)
    requires RealizedOn(env, node)
    ensures node in ReadyNodes(env)
  {
    var i :| 0 <= i < |env.status.realized| && env.status.realized[i].node == node
             && env.status.realized[i].ready && env.status.realized[i].observed == env.generation;
    assert env.status.realized[i] in env.status.realized;
  }

  /** With unique coordinates: a pod whose container names "<folder>/<name>" of an env realised on a node, its
      other references being met there, is released on every listing; and it is among those the env's own
      event wakes. `folder` is the env's, or its namespace if it has none. */
  lemma PodOfEnvIsServed(
    envs: Cluster, key: Key, folder: string, node: string, container: string, annotations: Annotations,
    refs: seq<EnvRef>, listings: seq<Option<seq<NamedEnv>>>, pods: seq<ListedPod>, pod: ListedPod)
    requires UniqueCoordinates(envs) && key in envs && '/' !in key.name && RealizedOn(envs[key], node)
    requires if envs[key].spec.folder == "" then folder == key.ns else folder == envs[key].spec.folder
    requires var k := "flox.seedmatic.io/environment." + container; k in annotations && annotations[k] == folder + "/" + key.name
    requires forall ref :: ref in RefSet(annotations) && ref != EnvRef(folder, key.name) ==> ReadyOn(envs, ref, node)
    requires Lists(refs, RefSet(annotations)) && ListsOf(listings, refs, envs)
    requires pod in pods && pod.annotations == annotations && "flox.seedmatic.io/env-ready" in pod.gates
    ensures Released(refs, listings)
    ensures pod.id in Waiters(pods, Coordinate(key, envs[key]))
  {
    RefSetReads(annotations, folder, key.name);
    assert EnvRef(folder, key.name) in RefSet(annotations);
    RealizedIsReady(envs[key], node);
    assert Coordinate(key, envs[key]) == EnvRef(folder, key.name);
    assert ReadyOn(envs, EnvRef(folder, key.name), node);
    assert EligibleNode(envs, annotations, node);
    forall r | r in refs ensures TwinsAgree(envs, r) { FirstMatchIsRightIffTwinsAgree(envs, r); }
    DecisionIsReleases(envs, annotations, refs, listings);
    WaitersAreTheGatedReferrers(pods, EnvRef(folder, key.name));
    assert Waits(pod, EnvRef(folder, key.name));
  }

  /** A pod that names one env refers to that one only. */
  lemma NamesOne(template: Annotations, k: string, folder: string, name: string, other: EnvRef)
    requires '/' !in name && template == map[k := folder + "/" + name] && "flox.seedmatic.io/environment." <= k
    ensures other in RefSet(template) <==> other == EnvRef(folder, name)
  {
    RefRoundTrip(EnvRef(folder, name), folder + "/" + name);
    assert OptsIn(k, template[k]) && k in template;
  }

  /** Such a pod, on literals: env kdns of namespace networking, without a folder. */
  lemma FolderlessEnvIsServed(envs: Cluster, node: string, listings: seq<Option<seq<NamedEnv>>>, pod: ListedPod)
    requires UniqueCoordinates(envs) && Key("networking", "kdns") in envs
    requires var env := envs[Key("networking", "kdns")]; env.spec.folder == "" && RealizedOn(env, node)
    requires pod.annotations == map["flox.seedmatic.io/environment.main" := "networking/kdns"]
    requires pod.gates == ["flox.seedmatic.io/env-ready"] && ListsOf(listings, [EnvRef("networking", "kdns")], envs)
    ensures Released([EnvRef("networking", "kdns")], listings)
    ensures pod.id in Waiters([pod], Coordinate(Key("networking", "kdns"), envs[Key("networking", "kdns")]))
  {
    var refs := [EnvRef("networking", "kdns")];
    var k := "flox.seedmatic.io/environment." + "main";
    assert k == "flox.seedmatic.io/environment.main" && "networking" + "/" + "kdns" == "networking/kdns";
    forall ref ensures ref in RefSet(pod.annotations) <==> ref == EnvRef("networking", "kdns") {
      NamesOne(pod.annotations, k, "networking", "kdns", ref);
    }
    PodOfEnvIsServed(envs, Key("networking", "kdns"), "networking", node, "main", pod.annotations, refs, listings, [pod], pod);
  }

  // ---------- the roll ----------

  /** The roll stamps what consumes the env as the reconcile's refreshed copy has it. */
  lemma RollFollowsTheCopy(c: EnvMachine.Config, s: EnvMachine.State, id: EnvMachine.TaskId)
    requires EnvMachine.Enabled(c, s, EnvMachine.Agent(id, EnvMachine.StampNext(true)))
    ensures s.tasks[id].Rolling? && s.tasks[id].next < |s.tasks[id].listed|
    ensures var t := s.tasks[id]; var folder := t.view.spec.folder;
      EnvMachine.Act(c, s, id, EnvMachine.StampNext(true)).stamp.Some? <==>
        ConsumerRolls.NeedsStamp(
          t.listed[t.next].template, EnvRef(if folder == "" then id.key.ns else folder, id.key.name), c.digest(t.result.lock))
  {
  }

  const APP := ConsumerRolls.Deployment(Key("ns", "app"))
  const CONTAINER_KEY := ANNOTATION_PREFIX + "main"
  const NEW_FOLDER := LostEdit.NEW_SPEC.folder
  const TEMPLATE: Annotations := map[CONTAINER_KEY := NEW_FOLDER + "/" + SingleAgent.ENV.name]
  const BUILT := EnvMachine.RealizeResult("/nix/store/x", "", "", "lock")

  lemma StampsOnlyItsEnv(template: Annotations, k: string, folder: string, name: string, other: EnvRef, digest: string)
    requires '/' !in name && template == map[k := folder + "/" + name] && "flox.seedmatic.io/environment." <= k
    requires k != ConsumerRolls.RESTART_MARKER && digest != "" && other != EnvRef(folder, name)
    ensures ConsumerRolls.NeedsStamp(template, EnvRef(folder, name), digest) && !ConsumerRolls.Consumes(template, other)
  {
    NamesOne(template, k, folder, name, EnvRef(folder, name));
    NamesOne(template, k, folder, name, other);
  }

  lemma TemplateIsOptIn()
    ensures "flox.seedmatic.io/environment." <= CONTAINER_KEY && CONTAINER_KEY != ConsumerRolls.RESTART_MARKER
    ensures '/' !in SingleAgent.ENV.name && NEW_FOLDER != SingleAgent.ENV.ns
  {
    assert CONTAINER_KEY[18] == ANNOTATION_PREFIX[18] != ConsumerRolls.RESTART_MARKER[18];
    assert |NEW_FOLDER| != |SingleAgent.ENV.ns|;
  }

  /** So the roll and the build are of one coordinate iff the refresh of markRealizing kept the folder, and it may
      not: from a fresh cluster, an env that has no folder is built under its namespace, its spec gets one during
      the slot wait, and the roll stamps a workload that consumes the new coordinate and not the one built. */
  lemma RollMayMissTheBuild(c: EnvMachine.Config) returns (s: EnvMachine.State, ls: seq<EnvMachine.Label>, m: EnvMachine.State)
    requires SingleAgent.OneAgent(c) && c.digest("lock") != ""
    ensures EnvMachine.Fresh(c, s) && EnvMachine.Reaches(c, EnvMachine.AnyStep(), s, ls, m)
    ensures EnvMachine.Enabled(c, m, EnvMachine.Agent(SingleAgent.AGENT, EnvMachine.StampNext(true)))
    ensures var t := m.tasks[SingleAgent.AGENT];
      && t.Rolling? && t.next < |t.listed| && t.read.spec.folder == ""
      && EnvMachine.Act(c, m, SingleAgent.AGENT, EnvMachine.StampNext(true)).stamp.Some?
      && !ConsumerRolls.Consumes(t.listed[t.next].template, EnvRef(SingleAgent.ENV.ns, SingleAgent.ENV.name))
  {
    s := LostEdit.StateAt(0);
    LostEdit.StartIsFresh(c);
    var first := LostEdit.StepsAreARun(c, 9);
    var rest;
    rest, m := ToTheRoll(c, LostEdit.StateAt(9));
    ls := first + rest;
    EnvMachine.ReachesCompose(c, EnvMachine.AnyStep(), s, first, LostEdit.StateAt(9), rest, m);
    StampMisses(c, m);
  }

  lemma StampMisses(c: EnvMachine.Config, m: EnvMachine.State)
    requires c.digest("lock") != "" && EnvMachine.Enabled(c, m, EnvMachine.Agent(SingleAgent.AGENT, EnvMachine.StampNext(true)))
    requires m.tasks[SingleAgent.AGENT].Rolling?
    requires m.tasks[SingleAgent.AGENT]
             == EnvMachine.Rolling(LostEdit.V1, LostEdit.V3, BUILT, [ConsumerRolls.Listed(APP, TEMPLATE)],
                                   m.tasks[SingleAgent.AGENT].since, 0, m.tasks[SingleAgent.AGENT].failed)
    ensures EnvMachine.Act(c, m, SingleAgent.AGENT, EnvMachine.StampNext(true)).stamp.Some?
    ensures !ConsumerRolls.Consumes(TEMPLATE, EnvRef(SingleAgent.ENV.ns, SingleAgent.ENV.name))
  {
    TemplateIsOptIn();
    StampsOnlyItsEnv(TEMPLATE, CONTAINER_KEY, NEW_FOLDER, SingleAgent.ENV.name, EnvRef(SingleAgent.ENV.ns, SingleAgent.ENV.name),
                     c.digest("lock"));
    RollFollowsTheCopy(c, m, SingleAgent.AGENT);
  }

  /** The build ends with a new lock and the consumer is listed. */
  lemma ToTheRoll(c: EnvMachine.Config, s: EnvMachine.State) returns (ls: seq<EnvMachine.Label>, t: EnvMachine.State)
    requires SingleAgent.OneAgent(c) && s == LostEdit.StateAt(9)
    ensures EnvMachine.Reaches(c, EnvMachine.AnyStep(), s, ls, t)
    ensures SingleAgent.AGENT in t.tasks && SingleAgent.ENV in t.envs
    ensures t.tasks[SingleAgent.AGENT].Rolling?
    ensures t.tasks[SingleAgent.AGENT]
            == EnvMachine.Rolling(LostEdit.V1, LostEdit.V3, BUILT, [ConsumerRolls.Listed(APP, TEMPLATE)],
                                  t.tasks[SingleAgent.AGENT].since, 0, t.tasks[SingleAgent.AGENT].failed)
    ensures EnvMachine.Enabled(c, t, EnvMachine.Agent(SingleAgent.AGENT, EnvMachine.StampNext(true)))
  {
    var first := EnvMachine.Agent(SingleAgent.AGENT, EnvMachine.FinishRealize(BUILT));
    var second := EnvMachine.Agent(SingleAgent.AGENT, EnvMachine.ListWorkloads([ConsumerRolls.Listed(APP, TEMPLATE)]));
    var m := Finished(c, s);
    t := Listed(c, m);
    ls := [first, second];
    EnvMachine.ReachesAlong(c, EnvMachine.AnyStep(), [s, m, t], ls);
  }

  lemma Finished(c: EnvMachine.Config, s: EnvMachine.State) returns (t: EnvMachine.State)
    requires SingleAgent.OneAgent(c) && s == LostEdit.StateAt(9)
    ensures var l := EnvMachine.Agent(SingleAgent.AGENT, EnvMachine.FinishRealize(BUILT));
      EnvMachine.Enabled(c, s, l) && t == EnvMachine.Apply(c, s, l)
    ensures SingleAgent.AGENT in t.tasks && t.tasks[SingleAgent.AGENT] == EnvMachine.Built(LostEdit.V1, LostEdit.V3, BUILT)
    ensures SingleAgent.ENV in t.envs
  {
    t := EnvMachine.Apply(c, s, EnvMachine.Agent(SingleAgent.AGENT, EnvMachine.FinishRealize(BUILT)));
  }

  lemma Listed(c: EnvMachine.Config, s: EnvMachine.State) returns (t: EnvMachine.State)
    requires SingleAgent.OneAgent(c) && SingleAgent.ENV in s.envs
    requires SingleAgent.AGENT in s.tasks && s.tasks[SingleAgent.AGENT] == EnvMachine.Built(LostEdit.V1, LostEdit.V3, BUILT)
    ensures var l := EnvMachine.Agent(SingleAgent.AGENT, EnvMachine.ListWorkloads([ConsumerRolls.Listed(APP, TEMPLATE)]));
      EnvMachine.Enabled(c, s, l) && t == EnvMachine.Apply(c, s, l)
    ensures SingleAgent.AGENT in t.tasks && SingleAgent.ENV in t.envs
    ensures t.tasks[SingleAgent.AGENT]
            == EnvMachine.Rolling(LostEdit.V1, LostEdit.V3, BUILT, [ConsumerRolls.Listed(APP, TEMPLATE)], |s.log|, 0, false)
  {
    t := EnvMachine.Apply(c, s, EnvMachine.Agent(SingleAgent.AGENT, EnvMachine.ListWorkloads([ConsumerRolls.Listed(APP, TEMPLATE)])));
  }
}

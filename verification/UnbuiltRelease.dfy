/** The gate's exception is real: after the run of LostEdit a gated pod is released, and bound, for a
    generation that no node ever built. So GateSafety's hypothesis on skewed refreshes is needed. */
module UnbuiltRelease {
  import opened FloxApi
  import opened EnvRefs
  import opened PodGate
  import opened GateSafety
  import opened SingleAgent
  import EnvMachine
  import GateWakeups
  import LostEdit
  import Soundness
  import Webhook

  const POD := Key("prod", "pod")

  lemma GateStepRuns(
    c: EnvMachine.Config, s: System, l: Step, ls: seq<Label>, t: System)
    requires Enabled(s.cluster.envs, s.gate, l)
    requires Runs(c, EnvMachine.AnyStep(), s.(gate := Apply(s.cluster.envs, s.gate, l)), ls, t)
    ensures Runs(c, EnvMachine.AnyStep(), s, [OfGate(l)] + ls, t)
  {
  }

  /** A run of the node-agents, with the gate standing still. */
  lemma {:induction false} ClusterAlone(
    c: EnvMachine.Config, s: EnvMachine.State, cs: seq<EnvMachine.Label>, m: EnvMachine.State, gate: State, ls: seq<Label>, t: System)
    returns (all: seq<Label>)
    requires EnvMachine.Reaches(c, EnvMachine.AnyStep(), s, cs, m)
    requires Runs(c, EnvMachine.AnyStep(), System(m, gate), ls, t)
    ensures Runs(c, EnvMachine.AnyStep(), System(s, gate), all, t)
    decreases |cs|
  {
    if cs == [] {
      all := ls;
    } else {
      var rest := ClusterAlone(c, EnvMachine.Apply(c, s, cs[0]), cs[1..], m, gate, ls, t);
      all := [OfCluster(cs[0])] + rest;
      assert all[1..] == rest;
    }
  }

  /** What the gate sees of an env: its one reference and the node it is listed for. */
  ghost predicate Listed(envs: Envs, env: FloxEnv, ref: EnvRef, node: string) {
    && ENV in envs && env in envs[ENV] && Coordinate(ENV, env) == ref && ReadyNodes(env) == {node}
  }

  function Pod(annotations: Annotations, gates: seq<string>, selector: Selector, node: string, release: Option<Release>): PodState {
    PodState(annotations, gates, selector, node, true, release)
  }

  const STEPS := 5

  function Before(annotations: Annotations): PodState { Pod(annotations, [SCHEDULING_GATE], None, "", None) }

  function After(annotations: Annotations, env: FloxEnv, ref: EnvRef, node: string): PodState {
    Pod(annotations, [], Narrowed(None, [node]), "", Some(Release(annotations, [ref], [NamedEnv(ENV, env)], [node])))
  }

  /** The gate's states: the pod admitted, read, its reference resolved, released, bound. */
  function StateAt(i: nat, annotations: Annotations, env: FloxEnv, ref: EnvRef, node: string): State
    requires i <= STEPS
  {
    var p0 := Before(annotations);
    var p1 := After(annotations, env, ref, node);
    match i
    case 0 => State(map[], map[])
    case 1 => State(map[POD := [p0]], map[])
    case 2 => State(map[POD := [p0]], map[POD := GateTask(p0, 0, [ref], [], {})])
    case 3 => State(map[POD := [p0]], map[POD := GateTask(p0, 0, [ref], [NamedEnv(ENV, env)], {node})])
    case 4 => State(map[POD := [p0, p1]], map[])
    case 5 => State(map[POD := [p0, p1, p1.(node := node)]], map[])
  }

  function StepAt(i: nat, annotations: Annotations, env: FloxEnv, ref: EnvRef, node: string, to: Node): Step
    requires i < STEPS
  {
    match i
    case 0 => Admit(POD, annotations, "", [], None)
    case 1 => GateRead(POD, 0, [ref])
    case 2 => GateResolve(POD, [NamedEnv(ENV, env)])
    case 3 => GateRelease(POD, [node], true)
    case 4 => Bind(POD, to)
  }

  lemma Linked(envs: Envs, env: FloxEnv, annotations: Annotations, ref: EnvRef, node: string, to: Node, i: nat)
    requires Listed(envs, env, ref, node) && RefSet(annotations) == {ref} && i < STEPS
    requires to.name == node && to.labels == map[HOSTNAME := node]
    ensures var s, l := StateAt(i, annotations, env, ref, node), StepAt(i, annotations, env, ref, node, to);
      Enabled(envs, s, l) && Apply(envs, s, l) == StateAt(i + 1, annotations, env, ref, node)
  {
    var p0, p1 := Before(annotations), After(annotations, env, ref, node);
    match i
    case 0 =>
      assert ref in RefSet(annotations);
      assert [] + [SCHEDULING_GATE] == [SCHEDULING_GATE];
    case 1 =>
    case 2 => assert [] + [NamedEnv(ENV, env)] == [NamedEnv(ENV, env)];
    case 3 =>
      assert WithoutGate([SCHEDULING_GATE]) == [];
      assert [p0] + [p1] == [p0, p1];
    case 4 =>
      NarrowingIsExact(None, [node], to);
      assert [p0, p1] + [p1.(node := node)] == [p0, p1, p1.(node := node)];
  }

  /** A pod that opts into the env is admitted, released to the node and bound there. */
  lemma {:induction false} AdmitAndBind(
    c: EnvMachine.Config, cluster: EnvMachine.State, env: FloxEnv, annotations: Annotations, ref: EnvRef, node: string, to: Node, i: nat)
    returns (ls: seq<Label>)
    requires Listed(cluster.envs, env, ref, node) && RefSet(annotations) == {ref} && i <= STEPS
    requires to.name == node && to.labels == map[HOSTNAME := node]
    ensures Runs(c, EnvMachine.AnyStep(), System(cluster, StateAt(i, annotations, env, ref, node)), ls,
                 System(cluster, StateAt(STEPS, annotations, env, ref, node)))
    decreases STEPS - i
  {
    ls := [];
    if i < STEPS {
      Linked(cluster.envs, env, annotations, ref, node, to, i);
      var rest := AdmitAndBind(c, cluster, env, annotations, ref, node, to, i + 1);
      var l := StepAt(i, annotations, env, ref, node, to);
      GateStepRuns(c, System(cluster, StateAt(i, annotations, env, ref, node)), l, rest,
                   System(cluster, StateAt(STEPS, annotations, env, ref, node)));
      ls := [OfGate(l)] + rest;
    }
  }

  lemma AllOfIt(c: EnvMachine.Config, cluster: EnvMachine.State, env: FloxEnv, to: Node)
    returns (annotations: Annotations, ls: seq<Label>)
    requires Listed(cluster.envs, env, Coordinate(ENV, env), NODE) && to.name == NODE && to.labels == map[HOSTNAME := NODE]
    ensures Runs(c, EnvMachine.AnyStep(), System(cluster, State(map[], map[])), ls,
                 System(cluster, StateAt(STEPS, annotations, env, Coordinate(ENV, env), NODE)))
  {
    var ref := Coordinate(ENV, env);
    annotations := GateWakeups.OptIn("c", ref);
    GateWakeups.OptInRefersTo("c", ref);
    ls := AdmitAndBind(c, cluster, env, annotations, ref, NODE, to, 0);
  }

  /** From a fresh cluster and no pods, with one agent: a pod that waited behind the gate for one env is bound
      to a node, and no node ever completed a Realize of the generation the gate read. */
  lemma GatedPodMayRunUnbuilt(c: EnvMachine.Config, to: Node) returns (s: System, ls: seq<Label>, t: System)
    requires OneAgent(c) && to.name == NODE && to.labels == map[HOSTNAME := NODE]
    ensures EnvMachine.Fresh(c, s.cluster) && Start(s) && Soundness.Exact(s.cluster)
    ensures Runs(c, EnvMachine.AnyStep(), s, ls, t) && POD in t.gate.pods
    ensures var p := Latest(t.gate.pods[POD]);
      && p.barred && p.node == NODE && p.release.Some? && |p.release.value.seen| == 1
      && p.release.value.seen[0].env.generation == 2
      && forall n :: !CompletedIn(t.cluster.log)(n, p.release.value.seen[0].key, 2)
  {
    var cs, first, last := LostEdit.SpecEditIsLost(c);
    FreshIsStart(c, first);
    s := System(first, State(map[], map[]));
    var env := EnvMachine.Current(last.envs[ENV]);
    var annotations, rest := AllOfIt(c, last, env, to);
    t := System(last, StateAt(STEPS, annotations, env, Coordinate(ENV, env), NODE));
    ls := ClusterAlone(c, first, cs, last, State(map[], map[]), rest, t);
  }
}

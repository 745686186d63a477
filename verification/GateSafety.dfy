/** The scheduling barrier as a whole: admission, the gate controller, the scheduler and everyone who edits
    pods, running beside the node-agents of EnvMachine.

    A gate reconcile is a task of several steps: read the pod, resolve one reference at a time, update the
    pod. Its reads may be stale: of the pod any stored version, of each env any stored version, a fresh
    listing for every reference. Its update is rejected unless the pod is still the one it read. */
module GateSafety {
  import opened FloxApi
  import opened EnvRefs
  import opened PodGate
  import EnvMachine
  import Soundness
  import Webhook

  type Envs = map<Key, EnvMachine.History>

  /** What the gate's update was based on: the annotations of the pod it released, their references, and
      the env version it read for each. */
  datatype Release = Release(annotations: Annotations, refs: seq<EnvRef>, seen: seq<NamedEnv>, nodes: seq<string>)

  /** A pod. `barred`: it opted into an env and was not bound when it was admitted. `release` is history. */
  datatype PodState = PodState(
    annotations: Annotations, gates: seq<string>, selector: Selector, node: string, barred: bool, release: Option<Release>)

  type PodHistory = h: seq<PodState> | h != []
    witness [PodState(map[], [], None, "", false, None)]

  function Latest(h: PodHistory): PodState { h[|h| - 1] }

  /** A gate reconcile: the pod it read, as which version, its references, and for the first of them the env
      found and the nodes where all of those are ready. */
  datatype GateTask = GateTask(pod: PodState, version: nat, refs: seq<EnvRef>, seen: seq<NamedEnv>, eligible: set<string>)

  datatype State = State(pods: map<Key, PodHistory>, tasks: map<Key, GateTask>)

  datatype Step =
    | Admit(id: Key, annotations: Annotations, node: string, gates: seq<string>, selector: Selector)
    | Annotate(id: Key, annotations: Annotations)
    | DropGates(id: Key, gates: seq<string>)
    | Tighten(id: Key, selector: Selector)
    | Bind(id: Key, to: Node)
    | GateRead(id: Key, version: nat, refs: seq<EnvRef>)
    | GateResolve(id: Key, listing: seq<NamedEnv>)
    | GateStop(id: Key)
    | GateRelease(id: Key, nodes: seq<string>, accepted: bool)

  /** Everything listed is some stored version of an env. */
  ghost predicate ListedFrom(envs: Envs, listing: seq<NamedEnv>) {
    forall x :: x in listing ==> x.key in envs && x.env in envs[x.key]
  }

  ghost predicate Enabled(envs: Envs, s: State, l: Step) {
    if l.Admit? then
      l.id !in s.pods && (l.node != "" ==> l.gates == [])
    else if l.GateResolve? || l.GateStop? || l.GateRelease? then
      l.id in s.tasks && l.id in s.pods && GateEnabled(envs, s.pods[l.id], s.tasks[l.id], l)
    else
      l.id in s.pods && PodEnabled(s, s.pods[l.id], l)
  }

  /** What the API server and the scheduler allow: gates are only dropped by others (the env gate only by
      its controller), a selector is only tightened and only while a gate remains, and a pod is bound once,
      when it has no gate left, to a node its selector matches. A node's hostname label is its name. */
  ghost predicate PodEnabled(s: State, h: PodHistory, l: Step) {
    match l
    case Annotate(_, _) => true
    case DropGates(_, gates) =>
      (forall g :: g in gates ==> g in Latest(h).gates) && (HasGate(gates) <==> HasGate(Latest(h).gates))
    case Tighten(_, selector) =>
      Latest(h).gates != [] && forall node :: SelectorMatches(selector, node) ==> SelectorMatches(Latest(h).selector, node)
    case Bind(_, to) =>
      && Latest(h).gates == [] && Latest(h).node == "" && SelectorMatches(Latest(h).selector, to)
      && HOSTNAME in to.labels && to.labels[HOSTNAME] == to.name
    case GateRead(id, version, refs) =>
      && id !in s.tasks && version < |h| && HasGate(h[version].gates)
      && StrictlySorted(refs) && Lists(refs, RefSet(h[version].annotations))
    case _ => false
  }

  ghost predicate GateEnabled(envs: Envs, h: PodHistory, t: GateTask, l: Step) {
    match l
    case GateResolve(_, listing) => |t.seen| < |t.refs| && ListedFrom(envs, listing)
    case GateStop(_) => true
    case GateRelease(_, nodes, accepted) =>
      && |t.seen| == |t.refs| && (forall n :: n in nodes <==> n in t.eligible)
      && (accepted ==> t.version == |h| - 1)
    case _ => false
  }

  /** The pod the gate's update stores. */
  function Released(t: GateTask, nodes: seq<string>): PodState {
    t.pod.(selector := if nodes == [] then t.pod.selector else Narrowed(t.pod.selector, nodes),
           gates := WithoutGate(t.pod.gates),
           release := Some(Release(t.pod.annotations, t.refs, t.seen, nodes)))
  }

  /** One turn of the loop over the references. None: the reconcile returned, the pod stays gated. */
  function Resolved(t: GateTask, listing: seq<NamedEnv>): Option<GateTask>
    requires |t.seen| < |t.refs|
  {
    match Turn(t.seen == [], t.eligible, Some(listing), t.refs[|t.seen|])
    case ReleaseTo(left) => Some(t.(seen := t.seen + [FindEnv(listing, t.refs[|t.seen|]).value], eligible := left))
    case _ => None
  }

  function Store(s: State, id: Key, pod: PodState): State
    requires id in s.pods
  {
    s.(pods := s.pods[id := s.pods[id] + [pod]])
  }

  ghost function Apply(envs: Envs, s: State, l: Step): State
    requires Enabled(envs, s, l)
  {
    match l
    case Admit(id, annotations, node, gates, selector) =>
      var barred := RefSet(annotations) != {} && node == "";
      s.(pods := s.pods[id := [PodState(annotations, Webhook.GatesAfter(annotations, node, gates), selector, node, barred, None)]])
    case Annotate(id, annotations) => Store(s, id, Latest(s.pods[id]).(annotations := annotations))
    case DropGates(id, gates) => Store(s, id, Latest(s.pods[id]).(gates := gates))
    case Tighten(id, selector) => Store(s, id, Latest(s.pods[id]).(selector := selector))
    case Bind(id, to) => Store(s, id, Latest(s.pods[id]).(node := to.name))
    case GateRead(id, version, refs) =>
      s.(tasks := s.tasks[id := GateTask(s.pods[id][version], version, refs, [], {})])
    case GateResolve(id, listing) =>
      (match Resolved(s.tasks[id], listing)
       case None => s.(tasks := s.tasks - {id})
       case Some(t) => s.(tasks := s.tasks[id := t]))
    case GateStop(id) => s.(tasks := s.tasks - {id})
    case GateRelease(id, nodes, accepted) =>
      var done := s.(tasks := s.tasks - {id});
      if accepted then Store(done, id, Released(s.tasks[id], nodes)) else done
  }

  // ---------- the steps of one reconcile are PodGate's loop ----------

  /** The remaining turns of the loop, one listing each. */
  function ResolveAll(t: GateTask, listings: seq<Option<seq<NamedEnv>>>): Option<GateTask>
    requires |t.seen| + |listings| == |t.refs|
    requires forall i :: 0 <= i < |listings| ==> listings[i].Some?
    decreases |listings|
  {
    if listings == [] then Some(t)
    else match Resolved(t, listings[0].value)
      case None => None
      case Some(u) => ResolveAll(u, listings[1..])
  }

  /** A node that a task has not excluded so far. */
  predicate Candidate(t: GateTask, node: string) { t.seen == [] || node in t.eligible }

  lemma FirstTurn(refs: seq<EnvRef>, listings: seq<Option<seq<NamedEnv>>>)
    requires |refs| == |listings| > 0 && listings[0].Some?
    ensures AllFound(refs, listings) <==> FindEnv(listings[0].value, refs[0]).Some? && AllFound(refs[1..], listings[1..])
    ensures AllFound(refs, listings) ==> forall n ::
              ReadyForAll(refs, listings, n) <==>
              n in ReadyNodes(FindEnv(listings[0].value, refs[0]).value.env) && ReadyForAll(refs[1..], listings[1..], n)
  {
  }

  /** Taken one reference at a time, with anything happening in between, the loop reaches the update exactly
      when PodGate.Pod.Reconcile releases on the listings it was given, and with the same nodes. */
  lemma {:induction false} StepsAreTheLoop(t: GateTask, listings: seq<Option<seq<NamedEnv>>>)
    requires |t.seen| + |listings| == |t.refs|
    requires forall i :: 0 <= i < |listings| ==> listings[i].Some?
    requires t.seen != [] ==> t.eligible != {}
    ensures listings == [] ==> ResolveAll(t, listings) == Some(t)
    ensures listings != [] ==>
              var rest, out := t.refs[|t.seen|..], ResolveAll(t, listings);
              && (out.Some? ==> AllFound(rest, listings) && out.value.eligible != {}
                                && forall n :: n in out.value.eligible <==> Candidate(t, n) && ReadyForAll(rest, listings, n))
              && (out.None? ==> !AllFound(rest, listings) || forall n :: Candidate(t, n) ==> !ReadyForAll(rest, listings, n))
    decreases |listings|
  {
    if listings != [] {
      var rest := t.refs[|t.seen|..];
      FirstTurn(rest, listings);
      var turn := Resolved(t, listings[0].value);
      if turn.Some? {
        assert turn.value.refs[|turn.value.seen|..] == rest[1..];
        StepsAreTheLoop(turn.value, listings[1..]);
      } else if AllFound(rest, listings) {
        var ready := ReadyNodes(FindEnv(listings[0].value, rest[0]).value.env);
        assert (if t.seen == [] then ready else t.eligible * ready) == {};
        forall n | Candidate(t, n) ensures n !in ready {
          assert t.seen != [] ==> n !in t.eligible * ready;
        }
      }
    }
  }

  // ---------- what every step keeps ----------

  /** seen[i] is a stored version of the env refs[i] stands for. */
  ghost predicate ReadsAreStored(envs: Envs, refs: seq<EnvRef>, seen: seq<NamedEnv>) {
    && |seen| <= |refs|
    && (forall i :: 0 <= i < |seen| ==>
          && Coordinate(seen[i].key, seen[i].env) == refs[i]
          && seen[i].key in envs && seen[i].env in envs[seen[i].key])
  }

  ghost predicate ReadyInAll(seen: seq<NamedEnv>, node: string) {
    forall i :: 0 <= i < |seen| ==> node in ReadyNodes(seen[i].env)
  }

  ghost predicate TaskSafe(envs: Envs, h: PodHistory, t: GateTask) {
    && t.version < |h| && h[t.version] == t.pod && HasGate(t.pod.gates)
    && Lists(t.refs, RefSet(t.pod.annotations))
    && ReadsAreStored(envs, t.refs, t.seen)
    && (t.seen == [] ==> t.eligible == {})
    && (t.seen != [] ==> t.eligible != {} && forall n :: n in t.eligible <==> ReadyInAll(t.seen, n))
  }

  /** A release covers every reference the pod had, and confines it to nodes where all are ready. */
  ghost predicate ReleaseSafe(envs: Envs, p: PodState, r: Release) {
    && Lists(r.refs, RefSet(r.annotations))
    && |r.seen| == |r.refs| && ReadsAreStored(envs, r.refs, r.seen)
    && (r.refs != [] ==>
          && (forall n :: n in r.nodes <==> ReadyInAll(r.seen, n))
          && (forall node :: SelectorMatches(p.selector, node) ==> HostIn(node, r.nodes))
          && (p.node != "" ==> p.node in r.nodes))
  }

  ghost predicate PodSafe(envs: Envs, p: PodState) {
    && (p.barred ==> HasGate(p.gates) || p.release.Some?)
    && (p.node != "" ==> p.gates == [])
    && (p.release.Some? ==> !HasGate(p.gates) && ReleaseSafe(envs, p, p.release.value))
  }

  ghost predicate Safe(envs: Envs, s: State) {
    && (forall id :: id in s.pods ==> forall i :: 0 <= i < |s.pods[id]| ==> PodSafe(envs, s.pods[id][i]))
    && (forall id :: id in s.tasks ==> id in s.pods && TaskSafe(envs, s.pods[id], s.tasks[id]))
  }

  /** Storing a safe pod keeps everything safe. */
  lemma StoreIsSafe(envs: Envs, s: State, id: Key, pod: PodState)
    requires Safe(envs, s) && id in s.pods && PodSafe(envs, pod)
    ensures Safe(envs, Store(s, id, pod))
  {
  }

  lemma LatestIsSafe(envs: Envs, s: State, id: Key)
    requires Safe(envs, s) && id in s.pods
    ensures PodSafe(envs, Latest(s.pods[id]))
  {
  }

  /** The loop over the references keeps its invariant. */
  lemma ResolveIsSafe(envs: Envs, h: PodHistory, t: GateTask, listing: seq<NamedEnv>)
    requires TaskSafe(envs, h, t) && |t.seen| < |t.refs| && ListedFrom(envs, listing)
    ensures Resolved(t, listing).Some? ==> TaskSafe(envs, h, Resolved(t, listing).value)
  {
    var found := FindEnv(listing, t.refs[|t.seen|]);
    if found.Some? && Resolved(t, listing).Some? {
      FoundIsListed(listing, t.refs[|t.seen|]);
      var t' := Resolved(t, listing).value;
      assert t'.seen == t.seen + [found.value];
      forall n ensures n in t'.eligible <==> ReadyInAll(t'.seen, n) {
        assert ReadyInAll(t'.seen, n) ==> n in ReadyNodes(t'.seen[|t.seen|].env);
        assert ReadyInAll(t'.seen, n) ==> ReadyInAll(t.seen, n) by {
          forall i | 0 <= i < |t.seen| && ReadyInAll(t'.seen, n) ensures n in ReadyNodes(t.seen[i].env) {
            assert t'.seen[i] == t.seen[i];
          }
        }
      }
    }
  }

  lemma {:induction false} FoundIsListed(listing: seq<NamedEnv>, target: EnvRef)
    ensures var found := FindEnv(listing, target);
      found.Some? ==> found.value in listing && Coordinate(found.value.key, found.value.env) == target
  {
    if listing != [] {
      FoundIsListed(listing[1..], target);
    }
  }

  lemma ReleasedIsSafe(envs: Envs, h: PodHistory, t: GateTask, nodes: seq<string>)
    requires TaskSafe(envs, h, t) && PodSafe(envs, t.pod)
    requires |t.seen| == |t.refs| && forall n :: n in nodes <==> n in t.eligible
    ensures PodSafe(envs, Released(t, nodes))
  {
    var p := Released(t, nodes);
    WithoutGateKeepsOthers(t.pod.gates);
    if t.refs != [] {
      assert nodes != [] by {
        var n :| n in t.eligible;
        assert n in nodes;
      }
      forall node | SelectorMatches(p.selector, node) ensures HostIn(node, nodes) {
        NarrowingIsExact(t.pod.selector, nodes, node);
      }
    }
  }

  lemma AdmittedIsSafe(envs: Envs, annotations: Annotations, node: string, gates: seq<string>, selector: Selector)
    requires node != "" ==> gates == []
    ensures PodSafe(envs, PodState(annotations, Webhook.GatesAfter(annotations, node, gates), selector, node,
                                   RefSet(annotations) != {} && node == "", None))
  {
  }

  lemma BoundIsSafe(envs: Envs, p: PodState, to: Node)
    requires PodSafe(envs, p) && p.gates == [] && SelectorMatches(p.selector, to)
    requires HOSTNAME in to.labels && to.labels[HOSTNAME] == to.name
    ensures PodSafe(envs, p.(node := to.name))
  {
  }

  lemma EditedIsSafe(envs: Envs, p: PodState, q: PodState)
    requires PodSafe(envs, p) && q.node == p.node && q.barred == p.barred && q.release == p.release
    requires (HasGate(q.gates) <==> HasGate(p.gates)) && (p.gates == [] ==> q.gates == [])
    requires forall node :: SelectorMatches(q.selector, node) ==> SelectorMatches(p.selector, node)
    ensures PodSafe(envs, q)
  {
  }

  lemma PodStepIsSafe(envs: Envs, s: State, l: Step)
    requires Safe(envs, s) && l.id in s.pods && PodEnabled(s, s.pods[l.id], l) && !l.GateRead?
    ensures Enabled(envs, s, l) && Safe(envs, Apply(envs, s, l))
  {
    var p := Latest(s.pods[l.id]);
    LatestIsSafe(envs, s, l.id);
    var q :=
      match l
      case Annotate(_, annotations) => p.(annotations := annotations)
      case DropGates(_, gates) => p.(gates := gates)
      case Tighten(_, selector) => p.(selector := selector)
      case Bind(_, to) => p.(node := to.name);
    if l.Bind? {
      BoundIsSafe(envs, p, l.to);
    } else {
      assert q.gates != [] ==> q.gates[0] in p.gates;
      EditedIsSafe(envs, p, q);
    }
    StoreIsSafe(envs, s, l.id, q);
  }

  lemma GateStepIsSafe(envs: Envs, s: State, l: Step)
    requires Safe(envs, s) && l.id in s.pods && l.id in s.tasks && GateEnabled(envs, s.pods[l.id], s.tasks[l.id], l)
    ensures Enabled(envs, s, l) && Safe(envs, Apply(envs, s, l))
  {
    var t := s.tasks[l.id];
    if l.GateResolve? {
      ResolveIsSafe(envs, s.pods[l.id], t, l.listing);
    } else if l.GateRelease? && l.accepted {
      LatestIsSafe(envs, s, l.id);
      ReleasedIsSafe(envs, s.pods[l.id], t, l.nodes);
      StoreIsSafe(envs, s.(tasks := s.tasks - {l.id}), l.id, Released(t, l.nodes));
    }
  }

  lemma StepIsSafe(envs: Envs, s: State, l: Step)
    requires Safe(envs, s) && Enabled(envs, s, l)
    ensures Safe(envs, Apply(envs, s, l))
  {
    match l
    case Admit(id, annotations, node, gates, selector) => AdmittedIsSafe(envs, annotations, node, gates, selector);
    case GateRead(id, version, refs) =>
    case GateResolve(_, _) => GateStepIsSafe(envs, s, l);
    case GateStop(_) => GateStepIsSafe(envs, s, l);
    case GateRelease(_, _, _) => GateStepIsSafe(envs, s, l);
    case _ => PodStepIsSafe(envs, s, l);
  }

  lemma SafetySurvivesEnvSteps(envs: Envs, more: Envs, s: State)
    requires EnvMachine.Grows(envs, more) && Safe(envs, s)
    ensures Safe(more, s)
  {
  }

  // ---------- the combined system ----------

  datatype System = System(cluster: EnvMachine.State, gate: State)

  datatype Label = OfCluster(move: EnvMachine.Label) | OfGate(step: Step)

  ghost predicate Runs(
    c: EnvMachine.Config, ok: (EnvMachine.State, EnvMachine.Label) -> bool, s: System, ls: seq<Label>, t: System)
    decreases |ls|
  {
    if ls == [] then s == t
    else match ls[0]
      case OfCluster(l) =>
        && EnvMachine.Enabled(c, s.cluster, l) && ok(s.cluster, l)
        && Runs(c, ok, s.(cluster := EnvMachine.Apply(c, s.cluster, l)), ls[1..], t)
      case OfGate(l) =>
        && Enabled(s.cluster.envs, s.gate, l)
        && Runs(c, ok, s.(gate := Apply(s.cluster.envs, s.gate, l)), ls[1..], t)
  }

  function ClusterSteps(ls: seq<Label>): seq<EnvMachine.Label> {
    if ls == [] then []
    else if ls[0].OfCluster? then [ls[0].move] + ClusterSteps(ls[1..])
    else ClusterSteps(ls[1..])
  }

  /** The gate never disturbs the node-agents: their part of a run is a run of theirs. */
  lemma {:induction false} ClusterRuns(
    c: EnvMachine.Config, ok: (EnvMachine.State, EnvMachine.Label) -> bool, s: System, ls: seq<Label>, t: System)
    requires Runs(c, ok, s, ls, t)
    ensures EnvMachine.Reaches(c, ok, s.cluster, ClusterSteps(ls), t.cluster)
    decreases |ls|
  {
    if ls != [] {
      if ls[0].OfCluster? {
        ClusterRuns(c, ok, s.(cluster := EnvMachine.Apply(c, s.cluster, ls[0].move)), ls[1..], t);
        assert ClusterSteps(ls)[1..] == ClusterSteps(ls[1..]);
      } else {
        ClusterRuns(c, ok, s.(gate := Apply(s.cluster.envs, s.gate, ls[0].step)), ls[1..], t);
      }
    }
  }

  lemma {:induction false} RunsAreSafe(
    c: EnvMachine.Config, ok: (EnvMachine.State, EnvMachine.Label) -> bool, s: System, ls: seq<Label>, t: System)
    requires Safe(s.cluster.envs, s.gate) && Runs(c, ok, s, ls, t)
    ensures Safe(t.cluster.envs, t.gate)
    decreases |ls|
  {
    if ls != [] {
      if ls[0].OfCluster? {
        EnvMachine.StepGrows(c, s.cluster, ls[0].move);
        var next := s.(cluster := EnvMachine.Apply(c, s.cluster, ls[0].move));
        SafetySurvivesEnvSteps(s.cluster.envs, next.cluster.envs, s.gate);
        RunsAreSafe(c, ok, next, ls[1..], t);
      } else {
        StepIsSafe(s.cluster.envs, s.gate, ls[0].step);
        RunsAreSafe(c, ok, s.(gate := Apply(s.cluster.envs, s.gate, ls[0].step)), ls[1..], t);
      }
    }
  }

  // ---------- the main results ----------

  /** The pod's node has, for every reference, the env's realisation the gate saw: `built` says what an
      entry (node, key, generation) is known to mean. */
  ghost predicate RunsWhereBuilt(p: PodState, built: (string, Key, nat) -> bool)
    requires p.release.Some?
  {
    var r := p.release.value;
    && Lists(r.refs, RefSet(r.annotations)) && |r.seen| == |r.refs|
    && forall i :: 0 <= i < |r.refs| ==>
         && Coordinate(r.seen[i].key, r.seen[i].env) == r.refs[i]
         && built(p.node, r.seen[i].key, r.seen[i].env.generation)
  }

  /** The node committed a realisation reported for this generation, after a Realize of its own completed. */
  ghost function CommittedIn(log: seq<EnvMachine.Event>): (string, Key, nat) -> bool {
    (node: string, key: Key, generation: nat) =>
      exists built: nat, forced: bool ::
        && EnvMachine.Committed(node, key, built, generation, forced) in log
        && EnvMachine.Completed(node, key, built) in log
  }

  ghost function CompletedIn(log: seq<EnvMachine.Event>): (string, Key, nat) -> bool {
    (node: string, key: Key, generation: nat) => EnvMachine.Completed(node, key, generation) in log
  }

  lemma BoundPodRunsWhereCommitted(s: System, id: Key)
    requires Soundness.Sound(s.cluster) && Safe(s.cluster.envs, s.gate) && id in s.gate.pods
    requires var p := Latest(s.gate.pods[id]); p.node != "" && p.release.Some?
    ensures RunsWhereBuilt(Latest(s.gate.pods[id]), CommittedIn(s.cluster.log))
  {
  }

  ghost predicate Start(s: System) {
    Soundness.Sound(s.cluster) && Safe(s.cluster.envs, s.gate)
  }

  /** Gate safety: over every run, under every interleaving of admissions, annotation edits, spec edits,
      realisations, stale seen, rejected updates and bindings, a pod that was admitted gated is bound only
      after a release; that release covered every reference its annotations then had; and it is bound to a
      node that had committed, for each of them, the generation the gate read. */
  lemma GateIsSafe(c: EnvMachine.Config, s: System, ls: seq<Label>, t: System, id: Key)
    requires Start(s) && Runs(c, EnvMachine.AnyStep(), s, ls, t)
    requires id in t.gate.pods && Latest(t.gate.pods[id]).node != ""
    ensures var p := Latest(t.gate.pods[id]);
      && (p.barred ==> p.release.Some?)
      && (p.release.Some? ==> RunsWhereBuilt(p, CommittedIn(t.cluster.log)))
  {
    RunsAreSafe(c, EnvMachine.AnyStep(), s, ls, t);
    ClusterRuns(c, EnvMachine.AnyStep(), s, ls, t);
    Soundness.RealizedEntriesAreBacked(c, EnvMachine.AnyStep(), s.cluster, ClusterSteps(ls), t.cluster);
    LatestIsSafe(t.cluster.envs, t.gate, id);
    if Latest(t.gate.pods[id]).release.Some? { BoundPodRunsWhereCommitted(t, id); }
  }

  /** And when no markRealizing refresh jumps to another generation, the node completed a Realize of exactly
      the generation the gate read, for each reference. */
  lemma GatedPodsRunWhereRealized(c: EnvMachine.Config, s: System, ls: seq<Label>, t: System, id: Key)
    requires Start(s) && Soundness.Exact(s.cluster) && Runs(c, Soundness.NoSkew(), s, ls, t)
    requires id in t.gate.pods && Latest(t.gate.pods[id]).node != ""
    ensures var p := Latest(t.gate.pods[id]);
      && (p.barred ==> p.release.Some?)
      && (p.release.Some? ==> RunsWhereBuilt(p, CompletedIn(t.cluster.log)))
  {
    RunsAreSafe(c, Soundness.NoSkew(), s, ls, t);
    ClusterRuns(c, Soundness.NoSkew(), s, ls, t);
    Soundness.EntriesMeanBuiltGenerations(c, s.cluster, ClusterSteps(ls), t.cluster);
    LatestIsSafe(t.cluster.envs, t.gate, id);
    var p := Latest(t.gate.pods[id]);
    if p.release.Some? {
      BoundPodRunsWhereCommitted(t, id);
      var r := p.release.value;
      forall i | 0 <= i < |r.refs|
        ensures CompletedIn(t.cluster.log)(p.node, r.seen[i].key, r.seen[i].env.generation)
      {
        assert CommittedIn(t.cluster.log)(p.node, r.seen[i].key, r.seen[i].env.generation);
      }
    }
  }

  /** The empty gate beside a fresh cluster is a start. */
  lemma FreshIsStart(c: EnvMachine.Config, cluster: EnvMachine.State)
    requires EnvMachine.Fresh(c, cluster)
    ensures Start(System(cluster, State(map[], map[]))) && Soundness.Exact(cluster)
  {
  }
}

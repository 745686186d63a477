/** The rounds of Progress as runs of the transition system: resync a key, reconcile it, go on. */
module ProgressRuns {
  import opened FloxApi
  import opened EnvMachine
  import opened EnvReconcile
  import opened Progress
  import opened ReconcileRun

  /** Nothing is in flight on the node. */
  ghost predicate Idle(s: State, node: string) {
    Occupied(s, node) == 0 && forall id :: id in s.tasks ==> id.node != node
  }

  ghost predicate Runnable(c: Config, v: Visit) {
    Agrees(c, v.world) && IsRefusal(v.refusal.reason)
  }

  lemma VisitIsARun(c: Config, s: State, node: string, v: Visit) returns (t: State)
    requires node in c.nodes && Idle(s, node) && Runnable(c, v)
    ensures Path(c, AnyStep(), s, t) && Idle(t, node) && Objects(t) == AfterVisit(node, Objects(s), v)
  {
    var id := TaskId(node, v.key);
    var envs, held := Objects(s), 0;
    OneStepLeads(c, id, s, Resync(id));
    var m := Apply(c, s, Resync(id));
    assert Objects(m) == envs;
    t := ReconcileIsARun(c, m, id, envs, s.workloads, v.refusal, v.world, held);
    WorkloadsDoNotMatter(node, envs, s.workloads, v);
    LeadsOn(c, id, s, m, t);
    PathUnder(c, Own(id), AnyStep(), s, t);
    forall i | i in t.tasks ensures i.node != node {
      assert i != id;
      assert i in t.tasks - {id};
    }
  }

  lemma WorkloadsDoNotMatter(node: string, envs: Envs, workloads: ConsumerRolls.Workloads, v: Visit)
    ensures AfterReconcile(node, envs, workloads, v.key, v.refusal, v.world).envs == AfterVisit(node, envs, v)
  {
  }

  lemma {:induction false} VisitsAreARun(c: Config, s: State, node: string, visits: seq<Visit>) returns (t: State)
    requires node in c.nodes && Idle(s, node) && forall i :: 0 <= i < |visits| ==> Runnable(c, visits[i])
    ensures Path(c, AnyStep(), s, t) && Idle(t, node) && Objects(t) == AfterVisits(node, Objects(s), visits)
    decreases |visits|
  {
    if visits == [] {
      t := s;
      NoStepIsAPath(c, AnyStep(), s);
    } else {
      var m := VisitIsARun(c, s, node, visits[0]);
      t := VisitsAreARun(c, m, node, visits[1..]);
      PathsCompose(c, AnyStep(), s, m, t);
    }
  }

  lemma {:induction false} RoundsAreARun(c: Config, s: State, node: string, rounds: seq<seq<Visit>>) returns (t: State)
    requires node in c.nodes && Idle(s, node)
    requires forall i, j :: 0 <= i < |rounds| && 0 <= j < |rounds[i]| ==> Runnable(c, rounds[i][j])
    ensures Path(c, AnyStep(), s, t) && Idle(t, node) && Objects(t) == AfterRounds(node, Objects(s), rounds)
    decreases |rounds|
  {
    if rounds == [] {
      t := s;
      NoStepIsAPath(c, AnyStep(), s);
    } else {
      var m := VisitsAreARun(c, s, node, rounds[0]);
      t := RoundsAreARun(c, m, node, rounds[1..]);
      PathsCompose(c, AnyStep(), s, m, t);
    }
  }

  /** Bounded progress in the transition system: from every state with nothing in flight on the
      node, |envs| + 1 covering rounds are a run, and it ends with every env Realized at its
      current generation iff none started out wedged. */
  lemma ClusterGetsRealized(c: Config, s: State, node: string, rounds: seq<seq<Visit>>, rank: Key -> nat) returns (t: State)
    requires node in c.nodes && Idle(s, node)
    requires forall i, j :: 0 <= i < |rounds| && 0 <= j < |rounds[i]| ==> Runnable(c, rounds[i][j])
    requires SmoothRounds(Objects(s), rounds) && |rounds| == |Objects(s)| + 1 && Acyclic(Objects(s), rank)
    ensures Path(c, AnyStep(), s, t) && Objects(t).Keys == Objects(s).Keys
    ensures (forall k :: k in Objects(t) ==> Settled(node, Objects(t)[k])) <==> NoneWedged(node, Objects(s))
  {
    t := RoundsAreARun(c, s, node, rounds);
    RoundsRealizeEverything(node, Objects(s), rounds, rank);
  }
}

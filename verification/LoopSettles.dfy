/** Exactly when the loop between the catalogs of a namespace and its envs settles. */
module LoopSettles {
  import opened FloxApi
  import opened EnvMachine
  import opened CatalogLoop
  import opened LoopRuns
  import opened TwoRevisions
  import opened FlappingEnv
  import opened BarrenNamespace

  /** Some bound holds for the effective writes of every run in which nothing fails and nobody edits. */
  ghost predicate Settles(c: Config, setup: Setup, s: System) {
    exists bound: nat :: Within(c, setup, s, bound)
  }

  ghost predicate Within(c: Config, setup: Setup, s: System, bound: nat) {
    forall ms, t :: Runs(c, setup, s, ms, t) && Accepted(ms) ==> EffectiveMoves(c, setup, s, ms) <= bound
  }

  /** No two catalogs stamp different revisions. */
  predicate Agree(setup: Setup) { forall a, b :: a in setup.revisions && b in setup.revisions ==> !Disagree(setup, a, b) }

  ghost predicate NoneCanBuild(setup: Setup, s: State) {
    forall k :: k in s.envs && k.ns == setup.ns ==> !CanBuild(setup, s, k)
  }

  lemma OnlyRevision(setup: Setup) returns (revision: string)
    requires Agree(setup)
    ensures OneRevision(setup, revision)
  {
    if name :| name in setup.revisions && setup.revisions[name] != "" {
      revision := setup.revisions[name];
      forall other | other in setup.revisions && setup.revisions[other] != "" ensures setup.revisions[other] == revision {
        assert !Disagree(setup, name, other);
      }
    } else {
      revision := "";
    }
  }

  lemma AgreeingSettles(c: Config, node: string, setup: Setup, s: System)
    requires c.nodes == {node} && Starts(setup, s, node) && Agree(setup) && NoneFlaps(setup, node, s.cluster)
    ensures Settles(c, setup, s)
  {
    var revision := OnlyRevision(setup);
    var bound := 10 * |KeysOf(setup.ns, s.cluster)|;
    forall ms, t | Runs(c, setup, s, ms, t) ensures EffectiveMoves(c, setup, s, ms) <= bound {
      OneRevisionSettles(c, node, setup, revision, s, ms, t);
    }
    assert Within(c, setup, s, bound);
  }

  /** Where catalogs disagree, no env is at rest. */
  lemma NoRest(setup: Setup, id: TaskId, env: FloxEnv)
    requires !Agree(setup)
    ensures !AtRest(setup, id, env)
  {
    var a, b :| a in setup.revisions && b in setup.revisions && Disagree(setup, a, b);
    assert setup.revisions[a] != env.relock || setup.revisions[b] != env.relock;
  }

  lemma DisagreeingSettles(c: Config, node: string, setup: Setup, s: System)
    requires c.nodes == {node} && Starts(setup, s, node) && !Agree(setup)
    requires NoneFlaps(setup, node, s.cluster) && NoneCanBuild(setup, s.cluster)
    ensures Settles(c, setup, s)
  {
    forall k | k in s.cluster.envs && k.ns == setup.ns ensures !TwoReasons(setup, Current(s.cluster.envs[k]).spec) {
      NoRest(setup, TaskId(node, k), Current(s.cluster.envs[k]));
    }
    var bound := EnvBound(setup, s) * |KeysOf(setup.ns, s.cluster)|;
    forall ms, t | Runs(c, setup, s, ms, t) && Accepted(ms) ensures EffectiveMoves(c, setup, s, ms) <= bound {
      BarrenSettles(c, node, setup, s, ms, t);
    }
    assert Within(c, setup, s, bound);
  }

  lemma NoBound(c: Config, setup: Setup, s: System, bound: nat, t: System)
    requires Makes(c, setup, s, bound + 1, t)
    ensures !Within(c, setup, s, bound)
  {
  }

  lemma FlappingDoesNot(c: Config, node: string, setup: Setup, s: System)
    requires c.nodes == {node} && Starts(setup, s, node) && !NoneFlaps(setup, node, s.cluster)
    ensures !Settles(c, setup, s)
  {
    var key :| key in s.cluster.envs && key.ns == setup.ns && Flaps(setup, TaskId(node, key), Current(s.cluster.envs[key]));
    forall bound: nat ensures !Within(c, setup, s, bound) {
      var t := FlappingNeverSettles(c, node, setup, s, key, bound + 1);
      NoBound(c, setup, s, bound, t);
    }
  }

  lemma TwoRevisionsDoNot(c: Config, node: string, setup: Setup, s: System)
    requires c.nodes == {node} && Starts(setup, s, node) && !Agree(setup) && !NoneCanBuild(setup, s.cluster)
    ensures !Settles(c, setup, s)
  {
    var a, b :| Disagree(setup, a, b);
    var key :| key in s.cluster.envs && key.ns == setup.ns && CanBuild(setup, s.cluster, key);
    forall bound: nat ensures !Within(c, setup, s, bound) {
      var t := TwoRevisionsNeverSettle(c, node, setup, s, key, a, b, bound + 1);
      NoBound(c, setup, s, bound, t);
    }
  }

  /** The main result. The loop settles iff no env of the namespace flaps, that is, has an entry that waits and
      one that fails and is not at rest; and all catalogs that resolved have one revision, or else no env of
      the namespace can be built. */
  lemma SettlesIff(c: Config, node: string, setup: Setup, s: System)
    requires c.nodes == {node} && Starts(setup, s, node)
    ensures Settles(c, setup, s) <==>
            NoneFlaps(setup, node, s.cluster) && (Agree(setup) || NoneCanBuild(setup, s.cluster))
  {
    if !NoneFlaps(setup, node, s.cluster) {
      FlappingDoesNot(c, node, setup, s);
    } else if Agree(setup) {
      AgreeingSettles(c, node, setup, s);
    } else if NoneCanBuild(setup, s.cluster) {
      DisagreeingSettles(c, node, setup, s);
    } else {
      TwoRevisionsDoNot(c, node, setup, s);
    }
  }
}

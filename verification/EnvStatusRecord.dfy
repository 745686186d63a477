/** How a FloxEnv's status is edited locally and written back: upsertRealization, SetStatusCondition and
    the merge patch of the status subresource. */
module EnvStatusRecord {
  import opened FloxApi

  /** Replace the first entry of nr's node, or append one. */
  function Upsert(realized: seq<NodeRealization>, nr: NodeRealization): seq<NodeRealization> {
    if realized == [] then [nr]
    else if realized[0].node == nr.node then [nr] + realized[1..]
    else [realized[0]] + Upsert(realized[1..], nr)
  }

  ghost predicate DistinctNodes(realized: seq<NodeRealization>) {
    forall i, j :: 0 <= i < j < |realized| ==> realized[i].node != realized[j].node
  }

  /** status.realized stays a map keyed by node: the entry of nr's node becomes nr, every other
      entry stays, and no node gets two entries. */
  lemma {:induction false} UpsertIsMapUpdate(realized: seq<NodeRealization>, nr: NodeRealization)
    requires DistinctNodes(realized)
    ensures DistinctNodes(Upsert(realized, nr))
    ensures forall e :: e in Upsert(realized, nr) <==> e == nr || (e in realized && e.node != nr.node)
  {
    if realized != [] {
      var rest := realized[1..];
      assert realized == [realized[0]] + rest;
      assert forall i :: 0 <= i < |rest| ==> rest[i] == realized[i + 1];
      if realized[0].node != nr.node {
        UpsertIsMapUpdate(rest, nr);
        var tail := Upsert(rest, nr);
        assert forall i :: 0 <= i < |tail| ==> tail[i] in tail;
      }
    }
  }

  /** Whatever the list, an upsert adds nothing but nr. */
  lemma {:induction false} UpsertOnlyAdds(realized: seq<NodeRealization>, nr: NodeRealization)
    ensures nr in Upsert(realized, nr)
    ensures forall e :: e in Upsert(realized, nr) ==> e == nr || e in realized
  {
    if realized != [] && realized[0].node != nr.node {
      UpsertOnlyAdds(realized[1..], nr);
    }
  }

  /** meta.SetStatusCondition for the Ready condition, at the generation the object carries. */
  function WithReady(env: FloxEnv, status: ConditionStatus, reason: string, message: string): EnvStatus {
    env.status.(ready := Some(Condition(status, reason, message, env.generation)))
  }

  /** The status a merge patch from `base` to `edited` leaves on the server: a field is sent only when
      it was changed, and a list that is sent replaces the stored one whole. */
  function MergePatch(stored: EnvStatus, base: EnvStatus, edited: EnvStatus): EnvStatus {
    EnvStatus(
      if edited.ready != base.ready then edited.ready else stored.ready,
      if edited.lock != base.lock then edited.lock else stored.lock,
      if edited.relockToken != base.relockToken then edited.relockToken else stored.relockToken,
      if edited.realized != base.realized then edited.realized else stored.realized)
  }

  /** The client's copy of a FloxEnv, edited in place before it is sent back. */
  class LocalEnv {
    var env: FloxEnv

    constructor (env: FloxEnv)
      ensures this.env == env
    {
      this.env := env;
    }

    method SetReady(status: ConditionStatus, reason: string, message: string)
      modifies this
      ensures env == old(env).(status := WithReady(old(env), status, reason, message))
    {
      env := env.(status := env.status.(ready := Some(Condition(status, reason, message, env.generation))));
    }

    /** upsertRealization. */
    method UpsertRealization(nr: NodeRealization)
      modifies this
      ensures env == old(env).(status := old(env).status.(realized := Upsert(old(env).status.realized, nr)))
    {
      var realized := env.status.realized;
      var i := 0;
      while i < |realized|
        invariant 0 <= i <= |realized|
        invariant Upsert(realized, nr) == realized[..i] + Upsert(realized[i..], nr)
        invariant env == old(env)
      {
        if realized[i].node == nr.node {
          assert realized[i := nr] == realized[..i] + ([nr] + realized[i..][1..]);
          env := env.(status := env.status.(realized := realized[i := nr]));
          return;
        }
        assert realized[i..][1..] == realized[i + 1..];
        i := i + 1;
      }
      env := env.(status := env.status.(realized := realized + [nr]));
    }
  }
}

/** status.realized is replaced whole by the commit's patch, so a commit may drop what other nodes committed
    while it built: exactly when, and a run in which it does. */
module LostEntry {
  import opened FloxApi
  import opened EnvStatusRecord
  import opened EnvMachine
  import opened Soundness
  import opened Undisturbed
  import opened TwoAgents

  const RESULT := RealizeResult("/nix/store/x", "", "", "")

  lemma {:induction false} UpsertIsIdleIff(realized: seq<NodeRealization>, nr: NodeRealization)
    requires DistinctNodes(realized)
    ensures Upsert(realized, nr) == realized <==> nr in realized
  {
    if realized != [] {
      var rest := realized[1..];
      assert realized == [realized[0]] + rest;
      assert forall i :: 0 <= i < |rest| ==> rest[i] == realized[i + 1];
      if realized[0].node != nr.node {
        UpsertIsIdleIff(rest, nr);
        assert ([realized[0]] + Upsert(rest, nr))[1..] == Upsert(rest, nr);
      }
    }
  }

  /** In every state runs lead to, an accepted commit keeps the stored entry of another node iff its copy
      had that entry, or held its own entry as it is now, so that the list is not sent. */
  lemma CommitKeepsEntryIff(c: Config, s: State, id: TaskId, e: NodeRealization)
    requires Sound(s) && Enabled(c, s, Agent(id, Commit(true)))
    requires e in Current(s.envs[id.key]).status.realized && e.node != id.node
    ensures var t := Apply(c, s, Agent(id, Commit(true))); var task := s.tasks[id];
      id.key in t.envs &&
      (e in Current(t.envs[id.key]).status.realized
       <==> e in task.view.status.realized || NodeEntry(id.node, task.view, task.result) in task.view.status.realized)
  {
    var task := s.tasks[id];
    CommitStores(c, s, id);
    assert TaskSound(s.log, Current(s.envs[id.key]).generation, id, task);
    UpsertIsIdleIff(task.view.status.realized, NodeEntry(id.node, task.view, task.result));
    UpsertIsMapUpdate(task.view.status.realized, NodeEntry(id.node, task.view, task.result));
  }

  lemma CommitStores(c: Config, s: State, id: TaskId)
    requires Enabled(c, s, Agent(id, Commit(true)))
    ensures var t := Apply(c, s, Agent(id, Commit(true))); var task := s.tasks[id];
      && id.key in t.envs && HasView(task)
      && Current(t.envs[id.key]) == Patch(s.envs[id.key], task.view.status, CommittedStatus(id.node, task.read, task.view, task.result))
  {
  }

  // The versions after the first touch: announced by the slow agent, built by the quick one, then
  // committed by the slow one.
  const SEEN := AnnouncedEnv(SLOW.node, TOUCHED)
  const DONE := CommittedEnv(QUICK.node, SEEN, RESULT)
  const LOST := DONE.(status := MergePatch(DONE.status, SEEN.status, CommittedStatus(SLOW.node, TOUCHED, SEEN, RESULT)))

  lemma TheVersions()
    ensures !AlreadyRealized(SLOW.node, TOUCHED) && !AlreadyRealized(QUICK.node, SEEN) && !NeedsRoll(TOUCHED, RESULT)
    ensures SEEN.status == MergePatch(TOUCHED.status, TOUCHED.status, RealizingStatus(SLOW.node, TOUCHED))
    ensures AlreadyRealized(QUICK.node, DONE) && !AlreadyRealized(QUICK.node, LOST) && IsReady(LOST)
  {
    assert DONE.status.realized == [NodeEntry(QUICK.node, SEEN, RESULT)];
    assert NodeEntry(QUICK.node, SEEN, RESULT) in DONE.status.realized;
    assert LOST.status.realized == [NodeEntry(SLOW.node, SEEN, RESULT)];
  }

  /** From a fresh cluster: the quick agent commits while the slow one builds, and the slow one's commit
      drops its entry. The env is Ready, nothing is queued or running, and no longer counts as realised
      on the quick agent's node. */
  lemma EntryIsLost(c: Config) returns (s: State, m: State, t: State)
    requires OnlyTwo(c)
    ensures Fresh(c, s) && Path(c, AnyStep(), s, m)
    ensures Enabled(c, m, Agent(SLOW, Commit(true))) && Apply(c, m, Agent(SLOW, Commit(true))) == t
    ensures ENV in m.envs && AlreadyRealized(QUICK.node, Current(m.envs[ENV]))
    ensures ENV in t.envs && !AlreadyRealized(QUICK.node, Current(t.envs[ENV])) && IsReady(Current(t.envs[ENV]))
    ensures t.due == {} && t.tasks == map[]
  {
    TheVersions();
    s := Start(c);
    m := QuickTouches(c, s, s, None, {SLOW, QUICK});
    m := SlowReads(c, s, m, TOUCHED, |m.envs[ENV]| - 1, {SLOW, QUICK});
    m := SlowAnnounces(c, s, m, TOUCHED, TOUCHED, {QUICK});
    m := QuickBuilds(c, s, m, SEEN, Some(Announced(TOUCHED, SEEN)), {QUICK}, RESULT);
    m := SlowBuilds(c, s, m, DONE, TOUCHED, SEEN, {}, RESULT);
    t := SlowStep(c, m, DONE, Built(TOUCHED, SEEN, RESULT), {}, Commit(true));
  }
}

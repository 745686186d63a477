/** What each write of a reconcile leaves in the status, field by field, when nobody wrote since its copy was
    taken; EnvMachine says what becomes of it otherwise. */
module StoredStatus {
  import opened FloxApi
  import opened EnvStatusRecord
  import opened EnvMachine

  /** The reconcile's copy is the stored status. */
  predicate InSync(s: State, id: TaskId, copy: FloxEnv) {
    id.key in s.envs && Current(s.envs[id.key]).status == copy.status
  }

  /** The step stores this condition, at the generation of the copy, and nothing else. */
  ghost predicate Reports(c: Config, s: State, id: TaskId, a: Action, copy: FloxEnv, reason: string, message: string)
    requires Enabled(c, s, Agent(id, a))
  {
    var t := Apply(c, s, Agent(id, a));
    id.key in s.envs && id.key in t.envs &&
    Current(t.envs[id.key]) == Current(s.envs[id.key]).(
      status := copy.status.(ready := Some(Condition(False, reason, message, copy.generation))))
  }

  lemma EarlyWrites(c: Config, s: State, id: TaskId, a: Action)
    requires Enabled(c, s, Agent(id, a)) && id in s.tasks && InSync(s, id, s.tasks[id].read)
    ensures var read := s.tasks[id].read;
      && (a == PublishPending(true) ==> Reports(c, s, id, a, read, "Pending", "queued for realisation"))
      && (a.Refuse? && a.accepted ==> Reports(c, s, id, a, read, a.reason, a.message)
                                      && a.reason in {"SerializeFailed", "FlakeResolveFailed", "WaitingForFlake"})
      && (a == Announce(true) ==> Reports(c, s, id, a, read, "Realizing", "realising the env closure on " + id.node))
  {
  }

  lemma HoldReports(c: Config, s: State, id: TaskId)
    requires Enabled(c, s, Agent(id, HoldForDeps(true))) && InSync(s, id, s.tasks[id].read)
    ensures s.tasks[id].CheckingDeps? && s.tasks[id].unmet != []
    ensures Reports(c, s, id, HoldForDeps(true), s.tasks[id].read, "WaitingForDeps",
                    "waiting for FloxEnvs to be Ready: " + Joined(s.tasks[id].unmet))
  {
  }

  /** The unmet names with a comma and a blank between them. */
  lemma {:induction false} JoinedReads(names: seq<string>, last: string)
    ensures Joined([last]) == last
    ensures names != [] ==> Joined(names + [last]) == Joined(names) + ", " + last
  {
    if |names| > 1 {
      JoinedReads(names[1..], last);
      assert (names + [last])[1..] == names[1..] + [last];
    } else if |names| == 1 {
      assert (names + [last])[1..] == [last];
    }
  }

  lemma FailureReports(c: Config, s: State, id: TaskId, a: Action)
    requires Enabled(c, s, Agent(id, a)) && id in s.tasks && HasView(s.tasks[id]) && InSync(s, id, s.tasks[id].view)
    ensures var view := s.tasks[id].view;
      && (a.FailRealize? && a.accepted ==> Reports(c, s, id, a, view, "RealizeFailed", a.message))
      && (a.FailListing? && a.accepted ==> Reports(c, s, id, a, view, "RestartConsumersFailed", a.message))
      && (a.FailRoll? && a.accepted ==> Reports(c, s, id, a, view, "RestartConsumersFailed", a.message))
  {
  }

  /** A commit, from an env that nobody wrote since the announcement: the lock Realize reported, if any; the relock
      that was read; Ready; and, on this node, what Realize made and nothing of what was listed before. */
  lemma CommitStores(c: Config, s: State, id: TaskId)
    requires Enabled(c, s, Agent(id, Commit(true))) && InSync(s, id, s.tasks[id].view)
    requires DistinctNodes(s.tasks[id].view.status.realized)
    ensures var task, t := s.tasks[id], Apply(c, s, Agent(id, Commit(true)));
      && id.key in t.envs && HasResult(task)
      && var before, after, made := task.view.status, Current(t.envs[id.key]).status, task.result;
      && after.ready == Some(Condition(True, "Realized", "realized on " + id.node + " at " + made.storePath, task.view.generation))
      && after.lock == (if made.lock == "" then before.lock else made.lock)
      && after.relockToken == task.read.relock
      && DistinctNodes(after.realized)
      && (forall e :: e in after.realized && e.node == id.node ==>
            e.ready && e.storePath == made.storePath && e.envPath == made.envPath && e.gcrootPath == made.gcrootPath
            && e.observed == task.view.generation)
      && (exists e :: e in after.realized && e.node == id.node)
      && (forall e: NodeRealization :: e.node != id.node ==> (e in after.realized <==> e in before.realized))
  {
    var task := s.tasks[id];
    CommitPatches(c, s, id);
    UpsertIsMapUpdate(task.view.status.realized, NodeEntry(id.node, task.view, task.result));
  }

  lemma CommitPatches(c: Config, s: State, id: TaskId)
    requires Enabled(c, s, Agent(id, Commit(true))) && InSync(s, id, s.tasks[id].view)
    ensures var task, t := s.tasks[id], Apply(c, s, Agent(id, Commit(true)));
      && id.key in t.envs && HasResult(task)
      && Current(t.envs[id.key]).status == CommittedStatus(id.node, task.read, task.view, task.result)
  {
  }
}

/** One node-agent that reads its own writes: a relock request is neither lost nor repeated, and its roll
    is never skipped. Edits, rejected patches, failures and crashes may still fall anywhere. */
module Relock {
  import opened FloxApi
  import opened EnvStatusRecord
  import opened EnvMachine
  import LockRoll

  /** Every Get returns the stored object. */
  ghost function FreshReads(): (State, Label) -> bool {
    (s: State, l: Label) =>
      l.Agent? && l.action.Get? && l.id.key in s.envs ==> l.action.version == |s.envs[l.id.key]| - 1
  }

  /** The forced realises of key that were committed. */
  function ForcedCommits(log: seq<Event>, key: Key): nat {
    if log == [] then 0
    else
      var last := log[|log| - 1];
      ForcedCommits(log[..|log| - 1], key) + if last.Committed? && last.key == key && last.forced then 1 else 0
  }

  /** The fields of status only commits write. */
  ghost predicate SamePins(a: EnvStatus, b: EnvStatus) {
    a.lock == b.lock && a.relockToken == b.relockToken && a.realized == b.realized
  }

  ghost predicate TaskOwns(s: State, id: TaskId, t: Task) {
    && id.key in s.envs
    && var cur := Current(s.envs[id.key]);
    && SamePins(t.read.status, cur.status)
    && (HasView(t) ==> SamePins(t.view.status, cur.status))
    && (id !in s.due ==> t.read.relock == cur.relock && t.read.generation == cur.generation)
    && (id !in s.due && HasView(t) ==> t.view.generation == cur.generation)
    && (Forced(t.read) ==>
          && ForcedCommits(s.log, id.key) <= Writes(s, id.key)
          && (ForcedCommits(s.log, id.key) == Writes(s, id.key) ==> t.read.relock == cur.relock))
  }

  ghost predicate KeyOwned(s: State, node: string, key: Key)
    requires key in s.envs
  {
    var id, cur := TaskId(node, key), Current(s.envs[key]);
    && ForcedCommits(s.log, key) <= Writes(s, key) + 1
    && (ForcedCommits(s.log, key) == Writes(s, key) + 1 ==> !Forced(cur))
    && (id !in s.due && id !in s.tasks ==> AlreadyRealized(node, cur))
  }

  ghost predicate Owned(s: State, node: string) {
    && (forall id :: id in s.tasks ==> id.node == node && TaskOwns(s, id, s.tasks[id]))
    && (forall key :: key in s.envs ==> KeyOwned(s, node, key))
    && (forall key :: key !in s.envs ==> ForcedCommits(s.log, key) == 0)
  }

  /** Any stored objects, nothing in flight, every key queued: a cluster the agent (re)starts on. */
  ghost predicate Restarted(s: State, node: string) {
    && s.tasks == map[] && s.log == []
    && forall key :: key in s.envs ==> TaskId(node, key) in s.due
  }

  // ---------- preservation ----------

  /** A committed status carries this node's entry for the generation of the view and the honoured
      token, whatever the patch left out. */
  lemma CommitIsRealized(node: string, h: History, t: Task)
    requires HasResult(t) && SamePins(t.view.status, Current(h).status)
    ensures var after := Patch(h, t.view.status, CommittedStatus(node, t.read, t.view, t.result));
      && after.generation == Current(h).generation && after.relock == Current(h).relock
      && after.status.relockToken == t.read.relock
      && after.status.realized == Upsert(t.view.status.realized, NodeEntry(node, t.view, t.result))
      && after.status.lock == (if t.result.lock != "" then t.result.lock else Current(h).status.lock)
      && (t.view.generation == Current(h).generation && t.read.relock == Current(h).relock ==> AlreadyRealized(node, after))
  {
    UpsertOnlyAdds(t.view.status.realized, NodeEntry(node, t.view, t.result));
  }

  /** A commit keeps the key's bookkeeping: the counts, and that an unqueued key is realised. */
  lemma CommitOwns(c: Config, s: State, id: TaskId)
    requires c.nodes == {id.node} && Owned(s, id.node) && Enabled(c, s, Agent(id, Commit(true)))
    ensures KeyOwned(Apply(c, s, Agent(id, Commit(true))), id.node, id.key)
  {
    var s' := Apply(c, s, Agent(id, Commit(true)));
    var t, h := s.tasks[id], s.envs[id.key];
    assert TaskOwns(s, id, t) && KeyOwned(s, id.node, id.key);
    CommitIsRealized(id.node, h, t);
    OtherEventsAreNotForced(c, s, id, Commit(true), id.key);
  }

  lemma OtherEventsAreNotForced(c: Config, s: State, id: TaskId, a: Action, key: Key)
    requires Enabled(c, s, Agent(id, a))
    ensures var s' := Apply(c, s, Agent(id, a));
      ForcedCommits(s'.log, key) == ForcedCommits(s.log, key)
      + (if a == Commit(true) && key == id.key && Forced(s.tasks[id].read) then 1 else 0)
  {
    var s' := Apply(c, s, Agent(id, a));
    var e := Act(c, s, id, a);
    if e.event.Some? {
      assert s'.log[..|s'.log| - 1] == s.log;
    }
  }

  lemma GetOwnsTask(c: Config, s: State, id: TaskId, a: Action)
    requires c.nodes == {id.node} && Owned(s, id.node) && Enabled(c, s, Agent(id, a)) && FreshReads()(s, Agent(id, a))
    requires a.Get?
    ensures TaskOwns(Apply(c, s, Agent(id, a)), id, Act(c, s, id, a).task.value)
  {
  }

  lemma StepKeepsPins(c: Config, s: State, id: TaskId, a: Action)
    requires Enabled(c, s, Agent(id, a)) && a != Commit(true) && id.key in s.envs
    ensures var s' := Apply(c, s, Agent(id, a)); var cur, cur' := Current(s.envs[id.key]), Current(s'.envs[id.key]);
      && SamePins(cur.status, cur'.status) && cur'.relock == cur.relock && cur'.generation == cur.generation
      && s'.writes == s.writes
      && (!a.Get? && Act(c, s, id, a).task.Some? ==> (id in s'.due <==> id in s.due))
  {
    if Act(c, s, id, a).stored.Some? { OnlyCommitWritesMore(c, s, id, a); }
    KeptTaskIsNotRequeued(c, s, id, a);
  }

  lemma KeptTaskIsNotRequeued(c: Config, s: State, id: TaskId, a: Action)
    requires Enabled(c, s, Agent(id, a)) && id.key in s.envs
    ensures Act(c, s, id, a).task.Some? ==> !Act(c, s, id, a).requeue
  {
  }

  /** Apart from a commit, a reconcile returns without being queued again only when it found its key gone
      or already realised. */
  lemma QuietReturns(c: Config, s: State, id: TaskId, a: Action)
    requires ActionEnabled(c, s, id, a) && a != Commit(true)
    requires Act(c, s, id, a).task.None? && !Act(c, s, id, a).requeue
    ensures a.GetMissing? || (a.Skip? && AlreadyRealized(id.node, s.tasks[id].read))
  {
  }

  /** The key of a step that is not an accepted commit. */
  lemma OtherActOwnsKey(c: Config, s: State, id: TaskId, a: Action)
    requires c.nodes == {id.node} && Owned(s, id.node) && Enabled(c, s, Agent(id, a))
    requires a != Commit(true) && id.key in s.envs
    ensures KeyOwned(Apply(c, s, Agent(id, a)), id.node, id.key)
  {
    var s' := Apply(c, s, Agent(id, a));
    OtherEventsAreNotForced(c, s, id, a, id.key);
    assert KeyOwned(s, id.node, id.key);
    StepKeepsPins(c, s, id, a);
    if id !in s'.due && id !in s'.tasks {
      QuietReturns(c, s, id, a);
      assert TaskOwns(s, id, s.tasks[id]);
    }
  }

  lemma NextTaskOwns(s: State, s': State, id: TaskId, t: Task, next: Task)
    requires TaskOwns(s, id, t) && id.key in s'.envs && next.read == t.read
    requires var cur, cur' := Current(s.envs[id.key]), Current(s'.envs[id.key]);
      && SamePins(cur.status, cur'.status) && cur'.relock == cur.relock && cur'.generation == cur.generation
      && (HasView(next) ==>
            || (HasView(t) && next.view == t.view)
            || (SamePins(next.view.status, cur.status) && (id !in s.due ==> next.view.generation == cur.generation)))
    requires s'.writes == s.writes && ForcedCommits(s'.log, id.key) == ForcedCommits(s.log, id.key) && (id in s'.due <==> id in s.due)
    ensures TaskOwns(s', id, next)
  {
  }

  /** A step after which the reconcile goes on changes neither the stored pins nor the counts. */
  lemma LaterActOwnsTask(c: Config, s: State, id: TaskId, a: Action)
    requires c.nodes == {id.node} && Owned(s, id.node) && Enabled(c, s, Agent(id, a))
    requires !a.Get? && !a.Commit? && Act(c, s, id, a).task.Some?
    ensures TaskOwns(Apply(c, s, Agent(id, a)), id, Act(c, s, id, a).task.value)
  {
    assert TaskOwns(s, id, s.tasks[id]);
    OtherEventsAreNotForced(c, s, id, a, id.key);
    TaskKeepsItsCopies(c, s, id, a);
    StepKeepsPins(c, s, id, a);
    if a.Announce? { AnnounceKeepsPins(c, s, id, a); }
    NextTaskOwns(s, Apply(c, s, Agent(id, a)), id, s.tasks[id], Act(c, s, id, a).task.value);
  }

  lemma AnnounceKeepsPins(c: Config, s: State, id: TaskId, a: Action)
    requires Enabled(c, s, Agent(id, a)) && a.Announce? && SamePins(s.tasks[id].read.status, Current(s.envs[id.key]).status)
    ensures var view := Act(c, s, id, a).task.value.view;
      && SamePins(view.status, Current(s.envs[id.key]).status)
      && (view.generation == Current(s.envs[id.key]).generation || view.generation == s.tasks[id].read.generation)
  {
  }

  /** What a step of `id` leaves alone: the objects, tasks and queue entries of other keys. */
  lemma OthersUntouched(c: Config, s: State, id: TaskId, a: Action, other: TaskId)
    requires Enabled(c, s, Agent(id, a)) && other != id
    ensures var s' := Apply(c, s, Agent(id, a));
      && (other in s'.tasks <==> other in s.tasks) && (other in s.tasks ==> s'.tasks[other] == s.tasks[other])
      && (other in s'.due <==> other in s.due)
      && (other.key != id.key ==> (other.key in s'.envs <==> other.key in s.envs)
                                  && (other.key in s.envs ==> s'.envs[other.key] == s.envs[other.key]))
      && s'.writes == s.writes
      && (other.key != id.key ==> ForcedCommits(s'.log, other.key) == ForcedCommits(s.log, other.key))
  {
    OtherEventsAreNotForced(c, s, id, a, other.key);
  }

  lemma AgentStepOwnsTask(c: Config, s: State, id: TaskId, a: Action, i: TaskId)
    requires c.nodes == {id.node} && Owned(s, id.node) && Enabled(c, s, Agent(id, a)) && FreshReads()(s, Agent(id, a))
    requires i in Apply(c, s, Agent(id, a)).tasks
    ensures i.node == id.node && TaskOwns(Apply(c, s, Agent(id, a)), i, Apply(c, s, Agent(id, a)).tasks[i])
  {
    if i == id {
      if a.Get? { GetOwnsTask(c, s, id, a); } else { LaterActOwnsTask(c, s, id, a); }
    } else {
      OthersUntouched(c, s, id, a, i);
      assert TaskOwns(s, i, s.tasks[i]);
    }
  }

  lemma AgentStepOwnsKey(c: Config, s: State, id: TaskId, a: Action, key: Key)
    requires c.nodes == {id.node} && Owned(s, id.node) && Enabled(c, s, Agent(id, a)) && key in Apply(c, s, Agent(id, a)).envs
    ensures KeyOwned(Apply(c, s, Agent(id, a)), id.node, key)
  {
    if key != id.key {
      OthersUntouched(c, s, id, a, TaskId(id.node, key));
      assert KeyOwned(s, id.node, key);
    } else if a == Commit(true) {
      CommitOwns(c, s, id);
    } else {
      OtherActOwnsKey(c, s, id, a);
    }
  }

  lemma AgentStepOwns(c: Config, s: State, id: TaskId, a: Action)
    requires c.nodes == {id.node} && Owned(s, id.node) && Enabled(c, s, Agent(id, a)) && FreshReads()(s, Agent(id, a))
    ensures Owned(Apply(c, s, Agent(id, a)), id.node)
  {
    var s' := Apply(c, s, Agent(id, a));
    forall i | i in s'.tasks ensures i.node == id.node && TaskOwns(s', i, s'.tasks[i]) { AgentStepOwnsTask(c, s, id, a, i); }
    forall key | key in s'.envs ensures KeyOwned(s', id.node, key) { AgentStepOwnsKey(c, s, id, a, key); }
    forall key | key !in s'.envs ensures ForcedCommits(s'.log, key) == 0 { OtherEventsAreNotForced(c, s, id, a, key); }
  }

  /** What edits, crashes and resyncs do to a key: they move no pins, and a spec or annotation edit queues it. */
  lemma OtherStepKeepsPins(c: Config, s: State, l: Label, node: string, key: Key)
    requires c.nodes == {node} && Enabled(c, s, l) && !l.Agent? && key in s.envs
    ensures var s' := Apply(c, s, l); var id, cur := TaskId(node, key), Current(s.envs[key]);
      && s'.log == s.log && key in s'.envs
      && var cur' := Current(s'.envs[key]);
         && cur'.status == cur.status
         && (id in s.due ==> id in s'.due)
         && (id !in s'.due ==> cur'.relock == cur.relock && cur'.generation == cur.generation && (id in s.tasks ==> id in s'.tasks))
         && (if cur'.relock == cur.relock then Writes(s', key) == Writes(s, key) else Writes(s', key) == Writes(s, key) + 1)
  {
  }

  lemma OtherStepOwnsKey(c: Config, s: State, l: Label, node: string, key: Key)
    requires c.nodes == {node} && Owned(s, node) && Enabled(c, s, l) && !l.Agent? && key in Apply(c, s, l).envs
    ensures KeyOwned(Apply(c, s, l), node, key)
  {
    assert Apply(c, s, l).log == s.log;
    if key in s.envs {
      OtherStepKeepsPins(c, s, l, node, key);
      assert KeyOwned(s, node, key);
    }
  }

  lemma OtherStepOwnsTask(c: Config, s: State, l: Label, node: string, i: TaskId)
    requires c.nodes == {node} && Owned(s, node) && Enabled(c, s, l) && !l.Agent? && i in s.tasks
    ensures i.node == node && TaskOwns(Apply(c, s, l), i, s.tasks[i])
  {
    assert TaskOwns(s, i, s.tasks[i]);
    OtherStepKeepsPins(c, s, l, node, i.key);
  }

  lemma OtherStepOwns(c: Config, s: State, l: Label, node: string)
    requires c.nodes == {node} && Owned(s, node) && Enabled(c, s, l) && !l.Agent?
    ensures Owned(Apply(c, s, l), node)
  {
    var s' := Apply(c, s, l);
    forall i | i in s'.tasks ensures i.node == node && TaskOwns(s', i, s'.tasks[i]) {
      assert i in s.tasks && s'.tasks[i] == s.tasks[i];
      OtherStepOwnsTask(c, s, l, node, i);
    }
    forall key | key in s'.envs ensures KeyOwned(s', node, key) { OtherStepOwnsKey(c, s, l, node, key); }
    assert s'.log == s.log && s.envs.Keys <= s'.envs.Keys;
  }

  lemma {:induction false} RunsOwn(c: Config, node: string, s: State, ls: seq<Label>, t: State)
    requires c.nodes == {node} && Owned(s, node) && Reaches(c, FreshReads(), s, ls, t)
    ensures Owned(t, node)
    decreases |ls|
  {
    if ls != [] {
      if ls[0].Agent? { AgentStepOwns(c, s, ls[0].id, ls[0].action); } else { OtherStepOwns(c, s, ls[0], node); }
      RunsOwn(c, node, Apply(c, s, ls[0]), ls[1..], t);
    }
  }

  // ---------- results ----------

  /** Not lost: in every reachable state a key with a relock pending, or with no entry for its current
      generation, is queued or being reconciled, so an edit made during a blocking realise stays
      pending; with nothing due, the token equals the annotation. Not repeated: the committed forced
      realises never outnumber the annotation writes by more than the value there was at first. */
  lemma RelockIsNeitherLostNorRepeated(c: Config, node: string, s: State, ls: seq<Label>, t: State, key: Key)
    requires c.nodes == {node} && Restarted(s, node) && Reaches(c, FreshReads(), s, ls, t) && key in t.envs
    ensures var id, env := TaskId(node, key), Current(t.envs[key]);
      && (id !in t.due && id !in t.tasks ==> AlreadyRealized(node, env) && env.relock == env.status.relockToken)
      && (id in t.tasks && id !in t.due ==> t.tasks[id].read.relock == env.relock)
    ensures ForcedCommits(t.log, key) <= Writes(t, key) + 1
  {
    RunsOwn(c, node, s, ls, t);
    var id := TaskId(node, key);
    assert KeyOwned(t, node, key);
    if id in t.tasks { assert TaskOwns(t, id, t.tasks[id]); }
  }

  /** With one agent that reads its own writes, every commit that changes the lock follows a completed
      roll of the same reconcile: the exception of LockRoll cannot occur. */
  lemma LockAlwaysRolls(c: Config, node: string, s: State, ls: seq<Label>, t: State, id: TaskId)
    requires c.nodes == {node} && Restarted(s, node) && Reaches(c, FreshReads(), s, ls, t)
    requires Enabled(c, t, Agent(id, Commit(true)))
    requires Act(c, t, id, Commit(true)).stored.value.status.lock != Current(t.envs[id.key]).status.lock
    ensures LockRoll.RollCompleted(c, t, id)
  {
    RunsOwn(c, node, s, ls, t);
    assert TaskOwns(t, id, t.tasks[id]);
    LockRoll.LockMovesOnlyAfterRoll(c, FreshReads(), s, ls, t, id);
  }
}

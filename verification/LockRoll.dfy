/** A new lock is committed only after its consumers were rolled: what that means under failing lists,
    patches and commits, and exactly when a commit moves the lock without a roll. */
module LockRoll {
  import opened FloxApi
  import opened EnvRefs
  import opened EnvStatusRecord
  import opened ConsumerRolls
  import opened EnvMachine

  /** The listed workload carried the digest when listed, or this pass stamped it. */
  ghost predicate Carried(log: seq<Event>, since: nat, id: TaskId, w: Listed, digest: string) {
    Marker(w.template) == digest || (since <= |log| && Stamped(id, w.id, digest) in log[since..])
  }

  /** The first `count` listed workloads that consume the env carry the digest. */
  ghost predicate RolledUpTo(log: seq<Event>, since: nat, id: TaskId, target: EnvRef, listed: seq<Listed>, count: nat, digest: string) {
    && since <= |log|
    && forall j :: 0 <= j < count && j < |listed| && Consumes(listed[j].template, target) ==>
         Carried(log, since, id, listed[j], digest)
  }

  ghost predicate TaskRolls(c: Config, log: seq<Event>, id: TaskId, t: Task) {
    && (t.Rolling? ==> NeedsRoll(t.read, t.result) && t.since <= |log|)
    && (t.Rolling? && !t.failed ==>
          RolledUpTo(log, t.since, id, Target(id.key, t.view), t.listed, t.next, c.digest(t.result.lock)))
    && (t.Rolled? ==>
          && NeedsRoll(t.read, t.result)
          && RolledUpTo(log, t.since, id, Target(id.key, t.view), t.listed, |t.listed|, c.digest(t.result.lock)))
  }

  ghost predicate Rolls(c: Config, s: State) {
    forall id :: id in s.tasks ==> TaskRolls(c, s.log, id, s.tasks[id])
  }

  lemma TaskRollsGrows(c: Config, log: seq<Event>, more: seq<Event>, id: TaskId, t: Task)
    requires TaskRolls(c, log, id, t)
    ensures TaskRolls(c, log + more, id, t)
  {
    if t.Rolling? || t.Rolled? {
      assert (log + more)[t.since..] == log[t.since..] + more;
    }
  }

  lemma ActRolls(c: Config, s: State, id: TaskId, a: Action)
    requires Rolls(c, s) && ActionEnabled(c, s, id, a) && Act(c, s, id, a).task.Some?
    ensures TaskRolls(c, s.log + Logged(Act(c, s, id, a)), id, Act(c, s, id, a).task.value)
  {
    var e := Act(c, s, id, a);
    if a.StampNext? {
      var t := s.tasks[id];
      var log := s.log + Logged(e);
      TaskRollsGrows(c, s.log, Logged(e), id, t);
      assert log[t.since..] == s.log[t.since..] + Logged(e);
      assert e.event.Some? ==> e.event.value in log[t.since..];
    } else if !a.Get? {
      TaskRollsGrows(c, s.log, Logged(e), id, s.tasks[id]);
    }
  }

  lemma StepRolls(c: Config, s: State, l: Label)
    requires Rolls(c, s) && Enabled(c, s, l)
    ensures Rolls(c, Apply(c, s, l))
  {
    var s' := Apply(c, s, l);
    if l.Agent? {
      var e := Act(c, s, l.id, l.action);
      assert s'.log == s.log + Logged(e);
      forall id | id in s'.tasks ensures TaskRolls(c, s'.log, id, s'.tasks[id]) {
        if id == l.id { ActRolls(c, s, id, l.action); } else { TaskRollsGrows(c, s.log, Logged(e), id, s.tasks[id]); }
      }
    }
  }

  lemma {:induction false} RunsRoll(c: Config, ok: (State, Label) -> bool, s: State, ls: seq<Label>, t: State)
    requires Rolls(c, s) && Reaches(c, ok, s, ls, t)
    ensures Rolls(c, t)
    decreases |ls|
  {
    if ls != [] {
      StepRolls(c, s, ls[0]);
      RunsRoll(c, ok, Apply(c, s, ls[0]), ls[1..], t);
    }
  }

  /** The commit comes after a pass of this reconcile over a listing in which every consumer of the env
      carried the new digest. */
  ghost predicate RollCompleted(c: Config, s: State, id: TaskId) {
    id in s.tasks && s.tasks[id].Rolled? &&
    var t := s.tasks[id];
    RolledUpTo(s.log, t.since, id, Target(id.key, t.view), t.listed, |t.listed|, c.digest(t.result.lock))
  }

  /** The main result: over every run, a commit that changes status.lock to L follows a completed roll
      for L of the same reconcile, unless L is the very pin this reconcile had read and the refresh of
      markRealizing had meanwhile brought in a different one. In that case, and only then, the lock
      moves without any roll. */
  lemma LockMovesOnlyAfterRoll(c: Config, ok: (State, Label) -> bool, s: State, ls: seq<Label>, t: State, id: TaskId)
    requires s.tasks == map[] && Reaches(c, ok, s, ls, t) && Enabled(c, t, Agent(id, Commit(true)))
    requires var before, after := Current(t.envs[id.key]), Act(c, t, id, Commit(true)).stored.value;
      after.status.lock != before.status.lock
    ensures var task, after := t.tasks[id], Act(c, t, id, Commit(true)).stored.value;
      && after.status.lock == task.result.lock != ""
      && (RollCompleted(c, t, id) <==> task.result.lock != task.read.status.lock)
      && (!RollCompleted(c, t, id) ==> task.view.status.lock != task.read.status.lock)
  {
    RunsRoll(c, ok, s, ls, t);
  }

  /** A reconcile whose lock did not change, or whose provisioner reports none, commits without rolling
      anything; one that rolled has failed to list or patch nothing. */
  lemma RollIsNeededExactlyForANewLock(c: Config, ok: (State, Label) -> bool, s: State, ls: seq<Label>, t: State, id: TaskId)
    requires s.tasks == map[] && Reaches(c, ok, s, ls, t) && Enabled(c, t, Agent(id, Commit(true)))
    ensures NeedsRoll(t.tasks[id].read, t.tasks[id].result) <==> RollCompleted(c, t, id)
  {
    RunsRoll(c, ok, s, ls, t);
  }
}

/** The loop between the catalog and an env settles: the catalog stamps its revision on the env, the env
    re-realises, and every readiness move re-enqueues the catalog. At one revision and with one agent that
    reads its own writes, each effective write strictly decreases a measure of at most ten for each env;
    failures, crashes and unexpected obstacles of that env are the only steps that raise it, by at most four
    each. Nothing is asked of the other envs, of dependencies or of how they are read. */
module Quiescence {
  import opened FloxApi
  import opened EnvStatusRecord
  import opened EnvMachine
  import opened Relock

  /** What is expected of one env: its reconcile, the revision it is stamped with, and the reasons for which
      it may be held before its build. */
  datatype Course = Course(id: TaskId, revision: string, reasons: set<string>)

  /** propagateRelock only ever writes the revision; the agent reads stored objects; the spec stays. */
  ghost predicate SmoothStep(o: Course, s: State, l: Label) {
    match l
    case EditRelock(key, value) => key == o.id.key ==> value == o.revision
    case EditSpec(key, _) => key != o.id.key
    case Agent(id, _) => id == o.id ==> FreshReads()(s, l)
    case _ => true
  }

  ghost function Smooth(o: Course): (State, Label) -> bool {
    (s: State, l: Label) => SmoothStep(o, s, l)
  }

  predicate Held(o: Course, env: FloxEnv) {
    env.status.ready.Some? && env.status.ready.value.status == False && env.status.ready.value.reason in o.reasons
  }

  /** An env is held for an unexpected reason, or for another one than before. */
  predicate Strays(o: Course, env: FloxEnv, reason: string) {
    reason !in o.reasons || (Held(o, env) && env.status.ready.value.reason != reason)
  }

  predicate Fails(a: Action) {
    a.FailRealize? || a.FailListing? || a.FailRoll? || a == Commit(false)
  }

  /** A step that sets the env back: a crash, a failed build, roll or commit, a strange obstacle. */
  predicate Setback(o: Course, s: State, l: Label) {
    match l
    case Crash(node) => node == o.id.node
    case Agent(id, a) =>
      id == o.id && id.key in s.envs &&
      (|| Fails(a)
       || (a.Refuse? && Strays(o, Current(s.envs[id.key]), a.reason))
       || (a.HoldForDeps? && Strays(o, Current(s.envs[id.key]), WAITING_FOR_DEPS)))
    case _ => false
  }

  /** What an effective write changes: the relock annotation, the lock, the token, or the status or
      reason of Ready. */
  function Visible(env: FloxEnv): (string, string, string, Option<(ConditionStatus, string)>) {
    (env.relock, env.status.lock, env.status.relockToken,
     match env.status.ready case None => None case Some(r) => Some((r.status, r.reason)))
  }

  ghost predicate EffectiveOn(s: State, s': State, key: Key) {
    key in s.envs && key in s'.envs && Visible(Current(s.envs[key])) != Visible(Current(s'.envs[key]))
  }

  // ---------- the measure ----------

  /** The reconcile will commit, unless it is held or fails. */
  predicate Commits(node: string, t: Task) {
    !t.Fetched? || (t.read.status.ready.Some? && !AlreadyRealized(node, t.read))
  }

  function CommitsLeft(o: Course, env: FloxEnv, task: Option<Task>): nat {
    if env.relock != o.revision then (if AlreadyRealized(o.id.node, env) then 1 else 2)
    else if task.Some? && Commits(o.id.node, task.value) && task.value.read.relock != o.revision then 2
    else if AlreadyRealized(o.id.node, env) then 0
    else 1
  }

  /** Readiness writes left before the next commit: Pending, the obstacle, Realizing. */
  function MovesLeft(o: Course, env: FloxEnv, task: Option<Task>): nat {
    if task.Some? && HasView(task.value) then 0
    else if env.status.ready.None? then 3
    else if Held(o, env) then 1
    else 2
  }

  function Potential(o: Course, env: FloxEnv, task: Option<Task>): nat {
    (if env.relock != o.revision then 1 else 0) + 3 * CommitsLeft(o, env, task) + MovesLeft(o, env, task)
  }

  /** An env still to be created has all its writes before it. */
  function Measure(o: Course, s: State): nat {
    if o.id.key in s.envs then Potential(o, Current(s.envs[o.id.key]), TaskOf(s, o.id)) else 10
  }

  // ---------- what a run keeps ----------

  ghost predicate TaskCalm(o: Course, s: State, t: Task) {
    && o.id.key in s.envs
    && var cur := Current(s.envs[o.id.key]);
    && SamePins(t.read.status, cur.status)
    && t.read.generation == cur.generation
    && (HasView(t) ==> SamePins(t.view.status, cur.status) && t.view.generation == cur.generation && !IsReady(t.view))
    && (!HasView(t) ==> t.read.status.ready == cur.status.ready)
    && (cur.relock != o.revision ==> t.read.relock == cur.relock)
    && (!t.Fetched? ==> Commits(o.id.node, Fetched(t.read)))
  }

  ghost predicate Calm(o: Course, s: State) {
    o.id in s.tasks ==> TaskCalm(o, s, s.tasks[o.id])
  }

  /** A commit uses up one commit and starts at most two more moves. */
  lemma CommitLowers(o: Course, s: State, t: Task)
    requires TaskCalm(o, s, t) && HasResult(t)
    ensures var h := s.envs[o.id.key];
      Potential(o, Patch(h, t.view.status, CommittedStatus(o.id.node, t.read, t.view, t.result)), None) < Potential(o, Current(h), Some(t))
  {
    var h := s.envs[o.id.key];
    CommitIsRealized(o.id.node, h, t);
    var after := Patch(h, t.view.status, CommittedStatus(o.id.node, t.read, t.view, t.result));
    assert IsReady(after);
    UpsertOnlyAdds(t.view.status.realized, NodeEntry(o.id.node, t.view, t.result));
    assert CommitsLeft(o, after, None) < CommitsLeft(o, Current(h), Some(t));
  }

  lemma CommitDecreases(c: Config, s: State, o: Course)
    requires Calm(o, s) && Enabled(c, s, Agent(o.id, Commit(true)))
    ensures Measure(o, Apply(c, s, Agent(o.id, Commit(true)))) < Measure(o, s)
  {
    CommitLowers(o, s, s.tasks[o.id]);
  }

  /** What a step without a setback does to the measure. */
  ghost predicate Falls(o: Course, s: State, s': State) {
    Measure(o, s') <= Measure(o, s) && (EffectiveOn(s, s', o.id.key) ==> Measure(o, s') < Measure(o, s))
  }

  /** Any other step of the reconcile lowers the potential of its key if it is effective, and never
      raises it, unless it is a setback. */
  lemma ActDecreases(c: Config, s: State, o: Course, a: Action)
    requires Calm(o, s) && Enabled(c, s, Agent(o.id, a))
    requires SmoothStep(o, s, Agent(o.id, a)) && !Setback(o, s, Agent(o.id, a)) && !a.Commit? && o.id.key in s.envs
    ensures Falls(o, s, Apply(c, s, Agent(o.id, a)))
  {
    match a
    case PublishPending(_) => PublishDecreases(c, s, o, a);
    case HoldForDeps(_) => HoldDecreases(c, s, o, a);
    case Refuse(_, _, _) => HoldDecreases(c, s, o, a);
    case Announce(_) => AnnounceDecreases(c, s, o, a);
    case _ => QuietStepKeeps(c, s, o, a);
  }

  lemma PublishDecreases(c: Config, s: State, o: Course, a: Action)
    requires Calm(o, s) && Enabled(c, s, Agent(o.id, a)) && a.PublishPending?
    ensures Falls(o, s, Apply(c, s, Agent(o.id, a)))
  {
    if a.accepted { OnlyCommitWritesMore(c, s, o.id, a); }
  }

  /** What holding an env stores, if anything. */
  lemma HoldStores(c: Config, s: State, id: TaskId, a: Action)
    requires Enabled(c, s, Agent(id, a)) && (a.HoldForDeps? || a.Refuse?)
    ensures var e := Act(c, s, id, a); var reason := if a.Refuse? then a.reason else WAITING_FOR_DEPS;
      && id in s.tasks && id.key in s.envs && !HoldsSlot(s.tasks[id]) && e.task.None?
      && (e.stored.Some? ==>
            var env := e.stored.value;
            && env == Current(s.envs[id.key]).(status := Current(s.envs[id.key]).status.(ready := env.status.ready))
            && (env.status.ready == Current(s.envs[id.key]).status.ready
                || (env.status.ready.Some? && env.status.ready.value.status == False && env.status.ready.value.reason == reason)))
  {
    if Act(c, s, id, a).stored.Some? { OnlyCommitWritesMore(c, s, id, a); }
  }

  lemma HoldDecreases(c: Config, s: State, o: Course, a: Action)
    requires Calm(o, s) && Enabled(c, s, Agent(o.id, a)) && (a.HoldForDeps? || a.Refuse?)
    requires !Setback(o, s, Agent(o.id, a))
    ensures Falls(o, s, Apply(c, s, Agent(o.id, a)))
  {
    HoldStores(c, s, o.id, a);
  }

  lemma AnnounceDecreases(c: Config, s: State, o: Course, a: Action)
    requires Calm(o, s) && Enabled(c, s, Agent(o.id, a)) && a.Announce?
    ensures Measure(o, Apply(c, s, Agent(o.id, a))) < Measure(o, s)
  {
    if a.accepted { OnlyCommitWritesMore(c, s, o.id, a); }
  }

  lemma GetKeeps(c: Config, s: State, o: Course, a: Action)
    requires Calm(o, s) && Enabled(c, s, Agent(o.id, a))
    requires SmoothStep(o, s, Agent(o.id, a)) && o.id.key in s.envs && a.Get?
    ensures Apply(c, s, Agent(o.id, a)).envs == s.envs && Measure(o, Apply(c, s, Agent(o.id, a))) <= Measure(o, s)
  {
  }

  /** A reconcile that goes on keeps its copies; one that leaves here had not announced. */
  predicate GoesOn(node: string, t: Task, next: Option<Task>) {
    match next
    case Some(u) => u.read == t.read && HasView(u) == HasView(t) && (Commits(node, u) ==> Commits(node, t))
    case None => !HasView(t)
  }

  predicate QuietAction(a: Action) {
    !a.Commit? && !a.PublishPending? && !a.HoldForDeps? && !a.Refuse? && !a.Announce? && !Fails(a)
  }

  lemma QuietStepGoesOn(c: Config, s: State, id: TaskId, a: Action)
    requires Enabled(c, s, Agent(id, a)) && QuietAction(a) && !a.Get? && !a.GetMissing?
    requires s.tasks[id].read.status.ready.Some?
    requires !s.tasks[id].Fetched? ==> Commits(id.node, Fetched(s.tasks[id].read))
    ensures Act(c, s, id, a).stored.None? && GoesOn(id.node, s.tasks[id], Act(c, s, id, a).task)
  {
    if Act(c, s, id, a).task.Some? { TaskKeepsItsCopies(c, s, id, a); }
  }

  lemma GoingOnKeeps(o: Course, env: FloxEnv, t: Task, next: Option<Task>)
    requires GoesOn(o.id.node, t, next)
    ensures Potential(o, env, next) <= Potential(o, env, Some(t))
  {
  }

  lemma QuietStepKeeps(c: Config, s: State, o: Course, a: Action)
    requires Calm(o, s) && Enabled(c, s, Agent(o.id, a))
    requires SmoothStep(o, s, Agent(o.id, a)) && o.id.key in s.envs && QuietAction(a)
    ensures Apply(c, s, Agent(o.id, a)).envs == s.envs && Measure(o, Apply(c, s, Agent(o.id, a))) <= Measure(o, s)
  {
    if a.Get? {
      GetKeeps(c, s, o, a);
    } else {
      QuietStepGoesOn(c, s, o.id, a);
      GoingOnKeeps(o, Current(s.envs[o.id.key]), s.tasks[o.id], Act(c, s, o.id, a).task);
    }
  }

  /** The catalog's stamp lowers the potential of the env it stamps. */
  lemma StampDecreases(c: Config, s: State, o: Course)
    requires c.nodes == {o.id.node} && Calm(o, s) && Enabled(c, s, EditRelock(o.id.key, o.revision))
    ensures Measure(o, Apply(c, s, EditRelock(o.id.key, o.revision))) < Measure(o, s)
  {
    var cur := Current(s.envs[o.id.key]);
    assert Current(Apply(c, s, EditRelock(o.id.key, o.revision)).envs[o.id.key]) == cur.(relock := o.revision);
  }

  /** What the end of a reconcile without a commit does to its key. */
  lemma ReturnStores(c: Config, s: State, o: Course, a: Action)
    requires Enabled(c, s, Agent(o.id, a)) && Setback(o, s, Agent(o.id, a))
    ensures var e := Act(c, s, o.id, a);
      && o.id.key in s.envs && o.id in s.tasks && e.task.None?
      && (e.stored.Some? ==> e.stored.value == Current(s.envs[o.id.key]).(
            status := Current(s.envs[o.id.key]).status.(ready := e.stored.value.status.ready)))
  {
    if Act(c, s, o.id, a).stored.Some? { OnlyCommitWritesMore(c, s, o.id, a); }
  }

  /** Dropping a task costs no commit. */
  lemma DroppedTaskRises(o: Course, env: FloxEnv, after: FloxEnv, t: Task)
    requires after == env.(status := env.status.(ready := after.status.ready))
    ensures Potential(o, after, None) <= Potential(o, env, Some(t)) + 3
  {
  }

  lemma SetbackRises(c: Config, s: State, o: Course, l: Label)
    requires Calm(o, s) && Enabled(c, s, l) && Setback(o, s, l)
    ensures Measure(o, Apply(c, s, l)) <= Measure(o, s) + 3
  {
    if l.Crash? {
      if o.id in s.tasks { DroppedTaskRises(o, Current(s.envs[o.id.key]), Current(s.envs[o.id.key]), s.tasks[o.id]); }
    } else {
      ReturnStores(c, s, o, l.action);
      DroppedTaskRises(o, Current(s.envs[o.id.key]), Current(Apply(c, s, l).envs[o.id.key]), s.tasks[o.id]);
    }
  }

  // ---------- calm is kept ----------

  lemma AnnounceLeavesCalmTask(c: Config, s: State, o: Course, a: Action)
    requires Calm(o, s) && Enabled(c, s, Agent(o.id, a)) && a.Announce?
    ensures TaskCalm(o, Apply(c, s, Agent(o.id, a)), Act(c, s, o.id, a).task.value)
  {
    AnnounceKeepsPins(c, s, o.id, a);
    StepKeepsPins(c, s, o.id, a);
  }

  lemma ActLeavesCalmTask(c: Config, s: State, o: Course, a: Action)
    requires Calm(o, s) && Enabled(c, s, Agent(o.id, a))
    requires SmoothStep(o, s, Agent(o.id, a)) && Act(c, s, o.id, a).task.Some?
    ensures TaskCalm(o, Apply(c, s, Agent(o.id, a)), Act(c, s, o.id, a).task.value)
  {
    if a.Announce? {
      AnnounceLeavesCalmTask(c, s, o, a);
    } else if !a.Get? {
      TaskKeepsItsCopies(c, s, o.id, a);
      OnlyReturnsWrite(c, s, o.id, a);
    }
  }

  /** A step that neither returns nor announces stores nothing. */
  lemma OnlyReturnsWrite(c: Config, s: State, id: TaskId, a: Action)
    requires ActionEnabled(c, s, id, a) && Act(c, s, id, a).task.Some? && !a.Announce?
    ensures Act(c, s, id, a).stored.None?
  {
  }

  lemma StepIsCalm(c: Config, s: State, o: Course, l: Label)
    requires c.nodes == {o.id.node} && Calm(o, s) && Enabled(c, s, l) && SmoothStep(o, s, l)
    ensures Calm(o, Apply(c, s, l))
  {
    if o.id in Apply(c, s, l).tasks {
      if l.Agent? && l.id == o.id {
        ActLeavesCalmTask(c, s, o, l.action);
      } else if l.Agent? {
        OthersUntouched(c, s, l.id, l.action, o.id);
      }
    }
  }

  /** A step that is no setback: the measure never rises, and falls when it writes effectively. */
  lemma StepDecreases(c: Config, s: State, o: Course, l: Label)
    requires c.nodes == {o.id.node} && Calm(o, s) && Enabled(c, s, l) && SmoothStep(o, s, l) && !Setback(o, s, l)
    ensures Falls(o, s, Apply(c, s, l))
  {
    if l.Agent? {
      if l.id != o.id { OthersUntouched(c, s, l.id, l.action, o.id); }
      else if l.action.GetMissing? { assert o.id.key !in s.envs; }
      else if l.action.Commit? { CommitDecreases(c, s, o); }
      else { ActDecreases(c, s, o, l.action); }
    } else if l.EditRelock? && l.key == o.id.key {
      StampDecreases(c, s, o);
    }
  }

  /** What every step adds to the effective writes and to the measure. */
  lemma StepIsCharged(c: Config, s: State, o: Course, l: Label)
    requires c.nodes == {o.id.node} && Calm(o, s) && Enabled(c, s, l) && SmoothStep(o, s, l)
    ensures var s' := Apply(c, s, l);
      (if EffectiveOn(s, s', o.id.key) then 1 else 0) + Measure(o, s') <= Measure(o, s) + if Setback(o, s, l) then 4 else 0
  {
    if Setback(o, s, l) {
      SetbackRises(c, s, o, l);
    } else {
      StepDecreases(c, s, o, l);
    }
  }

  // ---------- results ----------

  /** How many steps of a run write effectively to the env, and how many set it back. */
  datatype Tally = Tally(writes: nat, setbacks: nat)

  ghost function TallyOf(c: Config, o: Course, s: State, ls: seq<Label>): Tally
    decreases |ls|
  {
    if ls == [] || !Enabled(c, s, ls[0]) then Tally(0, 0)
    else
      var m := Apply(c, s, ls[0]);
      var rest := TallyOf(c, o, m, ls[1..]);
      Tally((if EffectiveOn(s, m, o.id.key) then 1 else 0) + rest.writes, (if Setback(o, s, ls[0]) then 1 else 0) + rest.setbacks)
  }

  lemma {:induction false} RunsAreCharged(c: Config, o: Course, s: State, ls: seq<Label>, t: State)
    requires c.nodes == {o.id.node} && Calm(o, s) && Reaches(c, Smooth(o), s, ls, t)
    ensures var tally := TallyOf(c, o, s, ls); tally.writes + Measure(o, t) <= Measure(o, s) + 4 * tally.setbacks
    decreases |ls|
  {
    if ls != [] {
      StepIsCalm(c, s, o, ls[0]);
      StepIsCharged(c, s, o, ls[0]);
      RunsAreCharged(c, o, Apply(c, s, ls[0]), ls[1..], t);
    }
  }

  /** The main result: from any stored object or none, in any interleaving of the catalog's stamps and the agent's
      reconciles, with other envs created, edited, failing and whatever else, however long: an env sees at most
      ten effective writes, and four more for each setback of its own. */
  lemma FeedbackLoopSettles(c: Config, o: Course, s: State, ls: seq<Label>, t: State)
    requires c.nodes == {o.id.node} && o.id !in s.tasks && Reaches(c, Smooth(o), s, ls, t)
    ensures TallyOf(c, o, s, ls).writes <= 10 + 4 * TallyOf(c, o, s, ls).setbacks
  {
    RunsAreCharged(c, o, s, ls, t);
  }
}

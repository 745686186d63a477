/** A small cluster for concrete runs: two agents on one env, a quick one whose reconciles are undisturbed
    and a slow one that moves step by step. */
module TwoAgents {
  import opened FloxApi
  import opened EnvStatusRecord
  import opened EnvMachine
  import opened EnvReconcile
  import opened ReconcileRun
  import opened Undisturbed

  const ENV := Key("ns", "env")
  const SLOW := TaskId("node-a", ENV)
  const QUICK := TaskId("node-b", ENV)

  ghost predicate OnlyTwo(c: Config) { c.nodes == {SLOW.node, QUICK.node} }

  const CREATED := FloxEnv(1, EnvSpec("", [], map[]), "", EnvStatus(None, "", "", []))
  const TOUCHED := CREATED.(status := WithReady(CREATED, False, PENDING, "queued for realisation"))

  /** The stored object, what the slow agent runs, and the queue; the quick agent stands still. */
  ghost predicate Is(s: State, env: FloxEnv, task: Option<Task>, due: set<TaskId>) {
    && ENV in s.envs && Current(s.envs[ENV]) == env && s.due == due
    && s.tasks == (match task { case Some(running) => map[SLOW := running] case None => map[] })
    && Occupied(s, QUICK.node) == 0
    && Occupied(s, SLOW.node) == if task.Some? && HoldsSlot(task.value) then 1 else 0
  }

  lemma Start(c: Config) returns (s: State)
    requires OnlyTwo(c)
    ensures Fresh(c, s) && Path(c, AnyStep(), s, s) && Is(s, CREATED, None, {SLOW, QUICK})
  {
    s := State(map[ENV := [CREATED]], map[], {SLOW, QUICK}, map[], map[], map[], []);
    NoStepIsAPath(c, AnyStep(), s);
  }

  lemma QuickLeaves(s: State, t: State, env: FloxEnv, task: Option<Task>, due: set<TaskId>, after: FloxEnv)
    requires t.tasks - {QUICK} == s.tasks - {QUICK} && t.due - {QUICK} == s.due - {QUICK}
    requires Occupied(t, SLOW.node) == Occupied(s, SLOW.node)
    requires Is(s, env, task, due) && On(t, QUICK, after, QUICK in t.due)
    ensures Is(t, after, task, (due - {QUICK}) + if QUICK in t.due then {QUICK} else {})
  {
    assert t.tasks == t.tasks - {QUICK} && s.tasks == s.tasks - {QUICK};
    assert t.due == (t.due - {QUICK}) + if QUICK in t.due then {QUICK} else {};
  }

  lemma QuickGoesOn(c: Config, r: State, s: State, t: State, env: FloxEnv, task: Option<Task>, due: set<TaskId>, after: FloxEnv)
    requires Path(c, AnyStep(), r, s) && Leads(c, QUICK, s, t)
    requires Is(s, env, task, due) && On(t, QUICK, after, QUICK in t.due)
    ensures Path(c, AnyStep(), r, t) && Is(t, after, task, (due - {QUICK}) + if QUICK in t.due then {QUICK} else {})
  {
    PathUnder(c, Own(QUICK), AnyStep(), s, t);
    PathsCompose(c, AnyStep(), r, s, t);
    QuickLeaves(s, t, env, task, due, after);
  }

  lemma QuickTouches(c: Config, r: State, s: State, task: Option<Task>, due: set<TaskId>) returns (t: State)
    requires OnlyTwo(c) && Path(c, AnyStep(), r, s) && Is(s, CREATED, task, due) && QUICK in due
    ensures Path(c, AnyStep(), r, t) && Is(t, TOUCHED, task, due)
  {
    t := Touch(c, s, QUICK, CREATED);
    QuickGoesOn(c, r, s, t, CREATED, task, due, TOUCHED);
    assert (due - {QUICK}) + {QUICK} == due;
  }

  lemma QuickBuilds(c: Config, r: State, s: State, env: FloxEnv, task: Option<Task>, due: set<TaskId>, result: RealizeResult)
    returns (t: State)
    requires OnlyTwo(c) && Path(c, AnyStep(), r, s) && Is(s, env, task, due) && QUICK in due
    requires env.status.ready.Some? && !AlreadyRealized(QUICK.node, env) && Plain(env.spec)
    ensures Path(c, AnyStep(), r, t) && Is(t, CommittedEnv(QUICK.node, env, result), task, due - {QUICK})
    ensures Grows(s.envs, t.envs)
  {
    t := Build(c, s, QUICK, env, Some(result));
    QuickGoesOn(c, r, s, t, env, task, due, CommittedEnv(QUICK.node, env, result));
  }

  /** An annotation edit queues both agents. */
  lemma RelockLeaves(c: Config, s: State, env: FloxEnv, value: string)
    requires OnlyTwo(c) && Is(s, env, None, {SLOW}) && value != env.relock
    ensures Enabled(c, s, EditRelock(ENV, value))
    ensures Is(Apply(c, s, EditRelock(ENV, value)), env.(relock := value), None, {SLOW, QUICK})
  {
    assert (set n | n in c.nodes :: TaskId(n, ENV)) == {SLOW, QUICK};
  }

  lemma AskForRelock(c: Config, r: State, s: State, env: FloxEnv, value: string) returns (t: State)
    requires OnlyTwo(c) && Path(c, AnyStep(), r, s) && Is(s, env, None, {SLOW}) && value != env.relock
    ensures Path(c, AnyStep(), r, t) && Is(t, env.(relock := value), None, {SLOW, QUICK}) && Grows(s.envs, t.envs)
  {
    var l := EditRelock(ENV, value);
    RelockLeaves(c, s, env, value);
    StepIsAPath(c, AnyStep(), s, l);
    StepGrows(c, s, l);
    t := Apply(c, s, l);
    PathsCompose(c, AnyStep(), r, s, t);
  }

  lemma SlowReads(c: Config, r: State, s: State, env: FloxEnv, version: nat, due: set<TaskId>) returns (t: State)
    requires OnlyTwo(c) && Path(c, AnyStep(), r, s) && Is(s, env, None, due) && SLOW in due && version < |s.envs[ENV]|
    ensures Path(c, AnyStep(), r, t) && Is(t, env, Some(Fetched(s.envs[ENV][version])), due - {SLOW})
  {
    StepIsAPath(c, AnyStep(), s, Agent(SLOW, Get(version)));
    t := Apply(c, s, Agent(SLOW, Get(version)));
    PathsCompose(c, AnyStep(), r, s, t);
  }

  lemma SlotOfStep(c: Config, s: State, task: Task, a: Action)
    requires ENV in s.envs && TaskEnabled(c, s, SLOW, task, a)
    ensures var e := ActOn(c, s, SLOW, task, s.envs[ENV], a);
      (if HoldsSlot(task) then 1 else 0) + e.slots == if e.task.Some? && HoldsSlot(e.task.value) then 1 else 0
  {
  }

  lemma SlowLeaves(c: Config, s: State, env: FloxEnv, task: Task, due: set<TaskId>, e: Effect)
    requires Is(s, env, Some(task), due) && !e.requeue
    requires (if HoldsSlot(task) then 1 else 0) + e.slots == if e.task.Some? && HoldsSlot(e.task.value) then 1 else 0
    ensures Is(Perform(c, s, SLOW, e, false), if e.stored.Some? then e.stored.value else env, e.task, due)
  {
  }

  /** A step of the slow agent that does not end in a retry. */
  lemma SlowStep(c: Config, s: State, env: FloxEnv, task: Task, due: set<TaskId>, a: Action) returns (t: State)
    requires OnlyTwo(c) && Is(s, env, Some(task), due) && TaskEnabled(c, s, SLOW, task, a)
    requires !ActOn(c, s, SLOW, task, s.envs[ENV], a).requeue
    ensures Enabled(c, s, Agent(SLOW, a)) && t == Apply(c, s, Agent(SLOW, a)) && Path(c, AnyStep(), s, t)
    ensures var e := ActOn(c, s, SLOW, task, s.envs[ENV], a);
      Is(t, if e.stored.Some? then e.stored.value else env, e.task, due)
  {
    SlotOfStep(c, s, task, a);
    SlowLeaves(c, s, env, task, due, ActOn(c, s, SLOW, task, s.envs[ENV], a));
    var l := Agent(SLOW, a);
    assert Enabled(c, s, l);
    StepIsAPath(c, AnyStep(), s, l);
    t := Apply(c, s, l);
  }

  lemma SlowGoesOn(c: Config, r: State, s: State, env: FloxEnv, task: Task, due: set<TaskId>, a: Action) returns (t: State)
    requires Path(c, AnyStep(), r, s)
    requires OnlyTwo(c) && Is(s, env, Some(task), due) && TaskEnabled(c, s, SLOW, task, a)
    requires !ActOn(c, s, SLOW, task, s.envs[ENV], a).requeue
    ensures Path(c, AnyStep(), r, t)
    ensures var e := ActOn(c, s, SLOW, task, s.envs[ENV], a);
      Is(t, if e.stored.Some? then e.stored.value else env, e.task, due)
  {
    t := SlowStep(c, s, env, task, due, a);
    PathsCompose(c, AnyStep(), r, s, t);
  }

  /** From a read to the announcement on the object of that moment. */
  lemma SlowAnnounces(c: Config, r: State, s: State, env: FloxEnv, read: FloxEnv, due: set<TaskId>) returns (t: State)
    requires OnlyTwo(c) && Path(c, AnyStep(), r, s) && Is(s, env, Some(Fetched(read)), due)
    requires read.status.ready.Some? && !AlreadyRealized(SLOW.node, read) && read.spec.dependsOn == []
    ensures var view := env.(status := MergePatch(env.status, read.status, RealizingStatus(SLOW.node, read)));
      Path(c, AnyStep(), r, t) && Is(t, view, Some(Announced(read, view)), due)
  {
    var m := SlowGoesOn(c, r, s, env, Fetched(read), due, ManifestReady);
    m := SlowGoesOn(c, r, m, env, CheckingDeps(read, 0, []), due, DepsMet);
    m := SlowGoesOn(c, r, m, env, AwaitingSlot(read), due, Acquire);
    t := SlowGoesOn(c, r, m, env, HoldingSlot(read), due, Announce(true));
  }

  lemma SlowBuilds(c: Config, r: State, s: State, env: FloxEnv, read: FloxEnv, view: FloxEnv, due: set<TaskId>, result: RealizeResult)
    returns (t: State)
    requires OnlyTwo(c) && Path(c, AnyStep(), r, s) && Is(s, env, Some(Announced(read, view)), due)
    ensures Path(c, AnyStep(), r, t) && Is(t, env, Some(Built(read, view, result)), due)
  {
    var m := SlowGoesOn(c, r, s, env, Announced(read, view), due, StartRealize);
    t := SlowGoesOn(c, r, m, env, Building(read, view), due, FinishRealize(result));
  }
}

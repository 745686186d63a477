/** The reconcile method and the transition system describe one program: an undisturbed run of
    FloxEnvReconciler.Reconcile, as EnvReconcile specifies it, is a run of EnvMachine, call by call. */
module ReconcileRun {
  import opened FloxApi
  import opened EnvStatusRecord
  import opened ConsumerRolls
  import opened FlakeInstalls
  import opened EnvMachine
  import opened EnvReconcile

  type Envs = map<Key, FloxEnv>

  function Objects(s: State): Envs { map k | k in s.envs :: Current(s.envs[k]) }

  /** What the reconcile can tell of a state: the stored objects and workloads, its own task, its node's
      slots in use, and whether its key is queued. */
  ghost predicate At(s: State, id: TaskId, envs: Envs, workloads: Workloads, task: Option<Task>, held: int, due: bool) {
    && Objects(s) == envs && s.workloads == workloads && TaskOf(s, id) == task
    && Occupied(s, id.node) == held && (id in s.due <==> due)
  }

  /** The reconcile `id` stands still, queued or not, and this is its object. */
  ghost predicate On(s: State, id: TaskId, env: FloxEnv, due: bool) {
    && id.key in s.envs && Current(s.envs[id.key]) == env
    && id !in s.tasks && Occupied(s, id.node) == 0 && (id in s.due <==> due)
  }

  lemma InEnvs(s: State, id: TaskId, envs: Envs)
    requires Objects(s) == envs && id.key in envs
    ensures id.key in s.envs && Current(s.envs[id.key]) == envs[id.key]
  {
    assert Objects(s).Keys == s.envs.Keys;
  }

  /** The steps of one reconcile that reads stored objects, and the resync that queues it. */
  ghost function Own(id: TaskId): (State, Label) -> bool {
    (s: State, l: Label) =>
      || l == Resync(id)
      || (l.Agent? && l.id == id && (l.action.Get? && id.key in s.envs ==> l.action.version == |s.envs[id.key]| - 1))
  }

  /** A run in which the other reconciles, their queue entries and the other nodes' slots stay as they are. */
  ghost predicate Leads(c: Config, id: TaskId, s: State, t: State) {
    && Path(c, Own(id), s, t) && Grows(s.envs, t.envs)
    && t.tasks - {id} == s.tasks - {id} && t.due - {id} == s.due - {id}
    && forall n :: n != id.node ==> Occupied(t, n) == Occupied(s, n)
  }

  lemma LeadsOn(c: Config, id: TaskId, s: State, m: State, t: State)
    requires Leads(c, id, s, m) && Leads(c, id, m, t)
    ensures Leads(c, id, s, t)
  {
    PathsCompose(c, Own(id), s, m, t);
  }

  lemma NoStepLeads(c: Config, id: TaskId, s: State)
    ensures Leads(c, id, s, s)
  {
    NoStepIsAPath(c, Own(id), s);
  }

  lemma OneStepLeads(c: Config, id: TaskId, s: State, l: Label)
    requires Enabled(c, s, l) && Own(id)(s, l)
    ensures Leads(c, id, s, Apply(c, s, l))
  {
    StepIsAPath(c, Own(id), s, l);
    StepGrows(c, s, l);
    assert Apply(c, s, l).tasks - {id} == s.tasks - {id} && Apply(c, s, l).due - {id} == s.due - {id};
  }

  function Stamp(workloads: Workloads, stamp: Option<(WorkloadId, string)>): Workloads {
    if stamp.Some? && stamp.value.0 in workloads
    then workloads[stamp.value.0 := workloads[stamp.value.0][RESTART_MARKER := stamp.value.1]] else workloads
  }

  lemma Performed(
    c: Config, s: State, id: TaskId, e: Effect, envs: Envs, workloads: Workloads, task: Option<Task>, held: int, due: bool)
    requires id.key in s.envs && At(s, id, envs, workloads, task, held, due)
    ensures At(Perform(c, s, id, e, false), id, if e.stored.Some? then envs[id.key := e.stored.value] else envs,
               Stamp(workloads, e.stamp), e.task, held + e.slots, due || e.requeue)
  {
  }

  /** One step of the reconcile, from what it can tell of the state to what it can tell after it. */
  lemma Step(
    c: Config, s: State, id: TaskId, a: Action, envs: Envs, workloads: Workloads, task: Task, held: int, due: bool) returns (t: State)
    requires id.node in c.nodes && id.key in s.envs && At(s, id, envs, workloads, Some(task), held, due)
    requires TaskEnabled(c, s, id, task, a)
    ensures Enabled(c, s, Agent(id, a)) && t == Apply(c, s, Agent(id, a)) && Leads(c, id, s, t)
    ensures var e := ActOn(c, s, id, task, s.envs[id.key], a);
      At(t, id, if e.stored.Some? then envs[id.key := e.stored.value] else envs, Stamp(workloads, e.stamp), e.task,
         held + e.slots, due || e.requeue)
  {
    var l := Agent(id, a);
    assert Enabled(c, s, l);
    OneStepLeads(c, id, s, l);
    t := Apply(c, s, l);
    var e := ActOn(c, s, id, task, s.envs[id.key], a);
    assert t == Perform(c, s, id, e, false);
    Performed(c, s, id, e, envs, workloads, Some(task), held, due);
  }

  function FreshGet(s: State, id: TaskId): Label
    requires id.key in s.envs
  {
    Agent(id, Get(|s.envs[id.key]| - 1))
  }

  lemma Fetch(c: Config, s: State, id: TaskId, envs: Envs, workloads: Workloads, held: int) returns (t: State)
    requires id.node in c.nodes && id.key in envs && At(s, id, envs, workloads, None, held, true)
    ensures id.key in s.envs && Enabled(c, s, FreshGet(s, id)) && t == Apply(c, s, FreshGet(s, id)) && Leads(c, id, s, t)
    ensures At(t, id, envs, workloads, Some(Fetched(envs[id.key])), held, false)
  {
    assert id.key in Objects(s);
    var l := FreshGet(s, id);
    OneStepLeads(c, id, s, l);
    t := Apply(c, s, l);
    assert Objects(t) == envs;
  }

  /** The Get of the next declared name, reading the stored object. */
  lemma CheckSees(c: Config, s: State, id: TaskId, envs: Envs, task: Task) returns (seen: Option<nat>)
    requires id.key in s.envs && Objects(s) == envs && task.CheckingDeps? && task.next < |task.read.spec.dependsOn|
    ensures TaskEnabled(c, s, id, task, CheckDep(seen))
    ensures var more := Unmet(envs, id.key, [task.read.spec.dependsOn[task.next]]);
      ActOn(c, s, id, task, s.envs[id.key], CheckDep(seen)) == GoTo(CheckingDeps(task.read, task.next + 1, task.unmet + more))
  {
    var name := task.read.spec.dependsOn[task.next];
    var dep := DepKey(id.key, name);
    seen := if dep in s.envs then Some(|s.envs[dep]| - 1) else None;
    assert Objects(s).Keys == s.envs.Keys;
    assert dep in envs ==> envs[dep] == Current(s.envs[dep]);
    assert Unmet(envs, id.key, [name]) == if dep in envs && IsReady(envs[dep]) then [] else [name];
    assert task.unmet + [] == task.unmet;
  }

  lemma CheckNext(
    c: Config, s: State, id: TaskId, envs: Envs, workloads: Workloads, task: Task, held: int) returns (t: State)
    requires id.node in c.nodes && id.key in envs && At(s, id, envs, workloads, Some(task), held, false)
    requires task.CheckingDeps? && task.next < |task.read.spec.dependsOn|
    ensures Leads(c, id, s, t)
    ensures var more := Unmet(envs, id.key, [task.read.spec.dependsOn[task.next]]);
      At(t, id, envs, workloads, Some(CheckingDeps(task.read, task.next + 1, task.unmet + more)), held, false)
  {
    assert id.key in s.envs by { assert Objects(s).Keys == s.envs.Keys; }
    var seen := CheckSees(c, s, id, envs, task);
    t := Step(c, s, id, CheckDep(seen), envs, workloads, task, held, false);
  }

  /** unmetDeps, one Get at a time. */
  lemma {:induction false} CheckRest(
    c: Config, s: State, id: TaskId, envs: Envs, workloads: Workloads, env: FloxEnv, n: nat, held: int) returns (t: State)
    requires id.node in c.nodes && id.key in envs && n <= |env.spec.dependsOn|
    requires At(s, id, envs, workloads, Some(CheckingDeps(env, n, Unmet(envs, id.key, env.spec.dependsOn[..n]))), held, false)
    ensures Leads(c, id, s, t)
    ensures At(t, id, envs, workloads,
               Some(CheckingDeps(env, |env.spec.dependsOn|, Unmet(envs, id.key, env.spec.dependsOn))), held, false)
    decreases |env.spec.dependsOn| - n
  {
    var names := env.spec.dependsOn;
    if n == |names| {
      assert names[..n] == names;
      t := s;
      NoStepLeads(c, id, s);
    } else {
      var m := CheckNext(c, s, id, envs, workloads, CheckingDeps(env, n, Unmet(envs, id.key, names[..n])), held);
      assert names[..n + 1] == names[..n] + [names[n]];
      UnmetOfConcatenation(envs, id.key, names[..n], [names[n]]);
      t := CheckRest(c, m, id, envs, workloads, env, n + 1, held);
      LeadsOn(c, id, s, m, t);
    }
  }

  /** stampConsumer for the rest of the listed workloads. */
  lemma {:induction false} StampRest(
    c: Config, s: State, id: TaskId, envs: Envs, stored: Workloads, rolling: Task, accepts: WorkloadId -> bool, held: int) returns (t: State)
    requires id.node in c.nodes && id.key in envs && rolling.Rolling? && rolling.next <= |rolling.listed|
    requires var target, digest := Target(id.key, rolling.view), c.digest(rolling.result.lock);
      && (rolling.failed <==> !AllRolled(rolling.listed[..rolling.next], target, digest, accepts))
      && At(s, id, envs, StampAll(stored, Patched(rolling.listed[..rolling.next], target, digest, accepts), digest), Some(rolling), held, false)
    ensures Leads(c, id, s, t)
    ensures var target, digest := Target(id.key, rolling.view), c.digest(rolling.result.lock);
      At(t, id, envs, StampAll(stored, Patched(rolling.listed, target, digest, accepts), digest),
         Some(rolling.(next := |rolling.listed|, failed := !AllRolled(rolling.listed, target, digest, accepts))), held, false)
    decreases |rolling.listed| - rolling.next
  {
    var target, digest, n := Target(id.key, rolling.view), c.digest(rolling.result.lock), rolling.next;
    if n == |rolling.listed| {
      assert rolling.listed[..n] == rolling.listed;
      t := s;
      NoStepLeads(c, id, s);
    } else {
      var w := rolling.listed[n];
      assert id.key in s.envs by { assert Objects(s).Keys == s.envs.Keys; }
      var before := StampAll(stored, Patched(rolling.listed[..n], target, digest, accepts), digest);
      var m := Step(c, s, id, StampNext(accepts(w.id)), envs, before, rolling, held, false);
      StampedOneMore(stored, rolling.listed, n, target, digest, accepts);
      var next := rolling.(next := n + 1, failed := rolling.failed || (NeedsStamp(w.template, target, digest) && !accepts(w.id)));
      t := StampRest(c, m, id, envs, stored, next, accepts, held);
      LeadsOn(c, id, s, m, t);
    }
  }

  lemma StampedOneMore(stored: Workloads, listed: seq<Listed>, n: nat, target: EnvRef, digest: string, accepts: WorkloadId -> bool)
    requires n < |listed|
    ensures var before, after := Patched(listed[..n], target, digest, accepts), Patched(listed[..n + 1], target, digest, accepts);
      var stamped := NeedsStamp(listed[n].template, target, digest) && accepts(listed[n].id);
      StampAll(stored, after, digest)
      == Stamp(StampAll(stored, before, digest), if stamped then Some((listed[n].id, digest)) else None)
    ensures AllRolled(listed[..n + 1], target, digest, accepts) <==>
            AllRolled(listed[..n], target, digest, accepts) && (NeedsStamp(listed[n].template, target, digest) ==> accepts(listed[n].id))
  {
    assert listed[..n + 1] == listed[..n] + [listed[n]];
    PatchedOfConcatenation(listed[..n], [listed[n]], target, digest, accepts);
    assert [listed[n]][0] == listed[n];
    assert Patched([listed[n]], target, digest, accepts)
           == if NeedsStamp(listed[n].template, target, digest) && accepts(listed[n].id) then {listed[n].id} else {};
    StampAllOfUnion(stored, Patched(listed[..n], target, digest, accepts), Patched([listed[n]], target, digest, accepts), digest);
  }

  // ---------- from the slot on ----------

  /** The world's calls and the system's agree where both name one. */
  ghost predicate Agrees(c: Config, w: World) {
    c.digest == w.digest
  }

  /** Where a reconcile with this result ends: its task gone, its slot returned, its key queued again unless
      it returned without error or requeue. */
  ghost predicate Ends(c: Config, s: State, t: State, id: TaskId, r: Result, held: int) {
    Leads(c, id, s, t) && At(t, id, r.envs, r.workloads, None, held, r.outcome != Done)
  }

  /** restartConsumers once its Lists worked. */
  lemma RollThrough(
    c: Config, s: State, id: TaskId, envs: Envs, workloads: Workloads, built: Task, listed: seq<Listed>,
    accepts: WorkloadId -> bool, held: int) returns (t: State, done: Task)
    requires id.node in c.nodes && id.key in envs && At(s, id, envs, workloads, Some(built), held, false)
    requires built.Built? && NeedsRoll(built.read, built.result)
    ensures Leads(c, id, s, t)
    ensures var target, digest := Target(id.key, built.view), c.digest(built.result.lock);
      && done.Rolling? && done.read == built.read && done.view == built.view && done.result == built.result
      && done.listed == listed && done.next == |listed| && done.failed == !AllRolled(listed, target, digest, accepts)
      && At(t, id, envs, StampAll(workloads, Patched(listed, target, digest, accepts), digest), Some(done), held, false)
  {
    var target, digest := Target(id.key, built.view), c.digest(built.result.lock);
    assert id.key in s.envs by { assert Objects(s).Keys == s.envs.Keys; }
    var m := Step(c, s, id, ListWorkloads(listed), envs, workloads, built, held, false);
    var rolling := Rolling(built.read, built.view, built.result, listed, |s.log|, 0, false);
    assert StampAll(workloads, Patched(listed[..0], target, digest, accepts), digest) == workloads;
    t := StampRest(c, m, id, envs, workloads, rolling, accepts, held);
    LeadsOn(c, id, s, m, t);
    done := rolling.(next := |listed|, failed := !AllRolled(listed, target, digest, accepts));
  }

  lemma EndRollEnds(
    c: Config, s: State, id: TaskId, envs: Envs, workloads: Workloads, done: Task, accepted: bool, held: int) returns (t: State)
    requires id.node in c.nodes && id.key in envs && At(s, id, envs, workloads, Some(done), held + 1, false)
    requires done.Rolling? && done.next == |done.listed|
    ensures Ends(c, s, t, id,
      if done.failed then
        Result(PatchStatus(envs, id.key, done.view.status, NotReady(done.view, RESTART_CONSUMERS_FAILED, "restart failed"), accepted), workloads, Error)
      else
        Result(PatchStatus(envs, id.key, done.view.status, CommittedStatus(id.node, done.read, done.view, done.result), accepted), workloads,
               if accepted then Done else Error), held)
  {
    if done.failed {
      t := FailEnds(c, s, id, envs, workloads, done, FailRoll("restart failed", accepted), held);
    } else {
      assert id.key in s.envs by { assert Objects(s).Keys == s.envs.Keys; }
      var p := Step(c, s, id, EndRoll, envs, workloads, done, held + 1, false);
      t := CommitEnds(c, p, id, envs, workloads, Rolled(done.read, done.view, done.result, done.listed, done.since), accepted, held);
      LeadsOn(c, id, s, p, t);
    }
  }

  lemma RollAndCommit(
    c: Config, s: State, id: TaskId, envs: Envs, workloads: Workloads, built: Task, w: World, held: int) returns (t: State)
    requires id.node in c.nodes && id.key in envs && Agrees(c, w) && built.Built?
    requires At(s, id, envs, workloads, Some(built), held + 1, false)
    ensures Ends(c, s, t, id, AfterBuild(id.node, envs, workloads, id.key, built.read, built.view, built.result, w), held)
  {
    if !NeedsRoll(built.read, built.result) {
      t := CommitEnds(c, s, id, envs, workloads, built, w.last, held);
    } else if w.deployments.None? || w.daemonSets.None? || w.statefulSets.None? {
      t := FailEnds(c, s, id, envs, workloads, built, FailListing("restart failed", w.last), held);
    } else {
      var listed := w.deployments.value + w.daemonSets.value + w.statefulSets.value;
      var n, done := RollThrough(c, s, id, envs, workloads, built, listed, w.accepts, held + 1);
      var rolled := AfterRoll(workloads, w, Coordinate(id.key, built.view), built.result.lock);
      t := EndRollEnds(c, n, id, envs, rolled, done, w.last, held);
      LeadsOn(c, id, s, n, t);
    }
  }

  lemma CommitEnds(
    c: Config, s: State, id: TaskId, envs: Envs, workloads: Workloads, task: Task, accepted: bool, held: int) returns (t: State)
    requires id.node in c.nodes && id.key in envs && At(s, id, envs, workloads, Some(task), held + 1, false)
    requires (task.Built? && !NeedsRoll(task.read, task.result)) || task.Rolled?
    ensures Ends(c, s, t, id,
      Result(PatchStatus(envs, id.key, task.view.status, CommittedStatus(id.node, task.read, task.view, task.result), accepted),
             workloads, if accepted then Done else Error), held)
  {
    assert id.key in s.envs && envs[id.key] == Current(s.envs[id.key]) by { assert Objects(s).Keys == s.envs.Keys; }
    t := Step(c, s, id, Commit(accepted), envs, workloads, task, held + 1, false);
  }

  /** The three failures after the slot was taken end in a best-effort Ready=False and an error. */
  lemma FailEnds(
    c: Config, s: State, id: TaskId, envs: Envs, workloads: Workloads, task: Task, a: Action, held: int) returns (t: State)
    requires id.node in c.nodes && id.key in envs && At(s, id, envs, workloads, Some(task), held + 1, false)
    requires a.FailRealize? || a.FailListing? || a.FailRoll?
    requires HasView(task) && TaskEnabled(c, s, id, task, a)
    ensures var reason := if a.FailRealize? then REALIZE_FAILED else RESTART_CONSUMERS_FAILED;
      Ends(c, s, t, id,
        Result(PatchStatus(envs, id.key, task.view.status, NotReady(task.view, reason, a.message), a.accepted), workloads, Error), held)
  {
    assert id.key in s.envs && envs[id.key] == Current(s.envs[id.key]) by { assert Objects(s).Keys == s.envs.Keys; }
    t := Step(c, s, id, a, envs, workloads, task, held + 1, false);
  }

  lemma RunFromBuild(
    c: Config, s: State, id: TaskId, envs: Envs, workloads: Workloads, building: Task, made: Option<RealizeResult>, w: World, held: int)
    returns (t: State)
    requires id.node in c.nodes && id.key in envs && Agrees(c, w) && building.Building?
    requires At(s, id, envs, workloads, Some(building), held + 1, false)
    ensures Ends(c, s, t, id,
      AfterRealizeCall(id.node, envs, workloads, id.key, building.read, building.view, made, w), held)
  {
    match made
    case None => t := FailEnds(c, s, id, envs, workloads, building, FailRealize("realize failed", w.last), held);
    case Some(result) =>
      assert id.key in s.envs by { assert Objects(s).Keys == s.envs.Keys; }
      var m := Step(c, s, id, FinishRealize(result), envs, workloads, building, held + 1, false);
      t := RollAndCommit(c, m, id, envs, workloads, Built(building.read, building.view, result), w, held);
      LeadsOn(c, id, s, m, t);
  }

  /** From the wait for a slot to the end. */
  lemma RunFromSlot(
    c: Config, s: State, id: TaskId, envs: Envs, workloads: Workloads, w: World, held: int) returns (t: State)
    requires id.node in c.nodes && id.key in envs && Agrees(c, w) && held < Capacity(c)
    requires AllResolve(id.key.ns, w.catalogs, envs[id.key].spec.manifest)
    requires At(s, id, envs, workloads, Some(AwaitingSlot(envs[id.key])), held, false)
    ensures Ends(c, s, t, id, AfterRealize(id.node, envs, workloads, id.key, w), held)
  {
    var env := envs[id.key];
    var announced := PatchStatus(envs, id.key, env.status, RealizingStatus(id.node, env), w.first);
    var view := if w.first then announced[id.key] else env.(status := RealizingStatus(id.node, env));
    var m := AnnounceAndStart(c, s, id, envs, workloads, w.first, held);
    var made := w.realize(RequestFor(id.key, env, ResolvedManifest(id.key.ns, w.catalogs, env.spec.manifest)));
    t := RunFromBuild(c, m, id, announced, workloads, Building(env, view), made, w, held);
    LeadsOn(c, id, s, m, t);
  }

  lemma AnnounceAndStart(
    c: Config, s: State, id: TaskId, envs: Envs, workloads: Workloads, accepted: bool, held: int) returns (t: State)
    requires id.node in c.nodes && id.key in envs && held < Capacity(c)
    requires At(s, id, envs, workloads, Some(AwaitingSlot(envs[id.key])), held, false)
    ensures Leads(c, id, s, t)
    ensures var env := envs[id.key];
      var announced := PatchStatus(envs, id.key, env.status, RealizingStatus(id.node, env), accepted);
      var view := if accepted then announced[id.key] else env.(status := RealizingStatus(id.node, env));
      At(t, id, announced, workloads, Some(Building(env, view)), held + 1, false)
  {
    var env := envs[id.key];
    assert id.key in s.envs by { assert Objects(s).Keys == s.envs.Keys; }
    var m := Step(c, s, id, Acquire, envs, workloads, AwaitingSlot(env), held, false);
    var n := Announces(c, m, id, envs, workloads, accepted, held + 1);
    var announced := PatchStatus(envs, id.key, env.status, RealizingStatus(id.node, env), accepted);
    var view := if accepted then announced[id.key] else env.(status := RealizingStatus(id.node, env));
    assert id.key in n.envs by { assert Objects(n).Keys == n.envs.Keys; }
    t := Step(c, n, id, StartRealize, announced, workloads, Announced(env, view), held + 1, false);
    LeadsOn(c, id, s, m, n);
    LeadsOn(c, id, s, n, t);
  }

  lemma Announces(
    c: Config, s: State, id: TaskId, envs: Envs, workloads: Workloads, accepted: bool, held: int) returns (t: State)
    requires id.node in c.nodes && id.key in envs && At(s, id, envs, workloads, Some(HoldingSlot(envs[id.key])), held, false)
    ensures Enabled(c, s, Agent(id, Announce(accepted))) && t == Apply(c, s, Agent(id, Announce(accepted))) && Leads(c, id, s, t)
    ensures var env := envs[id.key];
      var announced := PatchStatus(envs, id.key, env.status, RealizingStatus(id.node, env), accepted);
      var view := if accepted then announced[id.key] else env.(status := RealizingStatus(id.node, env));
      At(t, id, announced, workloads, Some(Announced(env, view)), held, false)
  {
    assert id.key in s.envs && envs[id.key] == Current(s.envs[id.key]) by { assert Objects(s).Keys == s.envs.Keys; }
    t := Step(c, s, id, Announce(accepted), envs, workloads, HoldingSlot(envs[id.key]), held, false);
  }

  // ---------- the whole reconcile ----------

  /** A return before the slot: with a best-effort Ready=False, or without any write. */
  lemma LeaveEnds(
    c: Config, s: State, id: TaskId, envs: Envs, workloads: Workloads, task: Task, a: Action, reason: string, message: string,
    outcome: Outcome, held: int) returns (t: State)
    requires id.node in c.nodes && id.key in envs && At(s, id, envs, workloads, Some(task), held, false)
    requires TaskEnabled(c, s, id, task, a) && outcome != Done
    requires match a
      case PublishPending(_) => reason == PENDING && message == "queued for realisation"
      case Refuse(r, m, _) => reason == r && message == m
      case HoldForDeps(_) => reason == WAITING_FOR_DEPS && message == "waiting for FloxEnvs to be Ready: " + Joined(task.unmet)
      case _ => false
    ensures Ends(c, s, t, id,
      Result(PatchStatus(envs, id.key, task.read.status, NotReady(task.read, reason, message), a.accepted), workloads, outcome), held)
  {
    assert id.key in s.envs && envs[id.key] == Current(s.envs[id.key]) by { assert Objects(s).Keys == s.envs.Keys; }
    t := Step(c, s, id, a, envs, workloads, task, held, false);
  }

  /** From the fetched object of an env that has a status and is not yet realised. */
  lemma RunFromManifest(
    c: Config, s: State, id: TaskId, envs: Envs, workloads: Workloads, refusal: Refusal, w: World, held: int) returns (t: State)
    requires id.node in c.nodes && id.key in envs && Agrees(c, w) && (w.slot ==> held < Capacity(c))
    requires IsRefusal(refusal.reason)
    requires At(s, id, envs, workloads, Some(Fetched(envs[id.key])), held, false)
    requires envs[id.key].status.ready.Some? && !AlreadyRealized(id.node, envs[id.key])
    ensures Ends(c, s, t, id, AfterReconcile(id.node, envs, workloads, id.key, refusal, w), held)
  {
    var env := envs[id.key];
    var resolves := AllResolve(id.key.ns, w.catalogs, env.spec.manifest);
    assert id.key in s.envs by { assert Objects(s).Keys == s.envs.Keys; }
    if !w.decodes || (resolves && !w.encodes(WithSchemaVersion(ResolvedManifest(id.key.ns, w.catalogs, env.spec.manifest)))) {
      t := LeaveEnds(c, s, id, envs, workloads, Fetched(env), Refuse(SERIALIZE_FAILED, refusal.message, w.first),
                     SERIALIZE_FAILED, refusal.message, Error, held);
    } else if !resolves {
      t := LeaveEnds(c, s, id, envs, workloads, Fetched(env), Refuse(refusal.reason, refusal.message, w.first),
                     refusal.reason, refusal.message, Error, held);
    } else {
      var m := Step(c, s, id, ManifestReady, envs, workloads, Fetched(env), held, false);
      var n := CheckRest(c, m, id, envs, workloads, env, 0, held);
      LeadsOn(c, id, s, m, n);
      t := RunFromDeps(c, n, id, envs, workloads, w, held);
      LeadsOn(c, id, s, n, t);
    }
  }

  lemma RunFromDeps(
    c: Config, s: State, id: TaskId, envs: Envs, workloads: Workloads, w: World, held: int) returns (t: State)
    requires id.node in c.nodes && id.key in envs && Agrees(c, w) && (w.slot ==> held < Capacity(c))
    requires AllResolve(id.key.ns, w.catalogs, envs[id.key].spec.manifest)
    requires var env := envs[id.key]; var names := env.spec.dependsOn;
      At(s, id, envs, workloads, Some(CheckingDeps(env, |names|, Unmet(envs, id.key, names))), held, false)
    ensures Ends(c, s, t, id, AfterDeps(id.node, envs, workloads, id.key, w), held)
  {
    var env := envs[id.key];
    var unmet := Unmet(envs, id.key, env.spec.dependsOn);
    var task := CheckingDeps(env, |env.spec.dependsOn|, unmet);
    assert id.key in s.envs by { assert Objects(s).Keys == s.envs.Keys; }
    if unmet != [] {
      t := LeaveEnds(c, s, id, envs, workloads, task, HoldForDeps(w.first), WAITING_FOR_DEPS,
                     "waiting for FloxEnvs to be Ready: " + Joined(unmet), RequeueAfter(10), held);
    } else {
      var m := Step(c, s, id, DepsMet, envs, workloads, task, held, false);
      if w.slot {
        t := RunFromSlot(c, m, id, envs, workloads, w, held);
      } else {
        assert id.key in m.envs by { assert Objects(m).Keys == m.envs.Keys; }
        t := Step(c, m, id, Cancel, envs, workloads, AwaitingSlot(env), held, false);
      }
      LeadsOn(c, id, s, m, t);
    }
  }

  /** The main result: whenever the key of a node is queued, no reconcile of it is in flight, and a slot is free
      unless the wait for one is cancelled, the system has a run in which nothing but that reconcile moves and which ends with exactly the
      objects and workloads the method leaves, the slot returned, and the key queued again iff the method
      returns a requeue or an error. So what holds of every run holds of every undisturbed reconcile. */
  lemma ReconcileIsARun(
    c: Config, s: State, id: TaskId, envs: Envs, workloads: Workloads, refusal: Refusal, w: World, held: int) returns (t: State)
    requires id.node in c.nodes && Agrees(c, w) && (w.slot ==> held < Capacity(c)) && At(s, id, envs, workloads, None, held, true)
    requires IsRefusal(refusal.reason)
    ensures Ends(c, s, t, id, AfterReconcile(id.node, envs, workloads, id.key, refusal, w), held)
  {
    if id.key !in envs {
      t := FetchMissing(c, s, id, envs, workloads, held);
    } else {
      var m := Fetch(c, s, id, envs, workloads, held);
      var env := envs[id.key];
      assert id.key in m.envs by { assert Objects(m).Keys == m.envs.Keys; }
      if env.status.ready.None? {
        t := LeaveEnds(c, m, id, envs, workloads, Fetched(env), PublishPending(w.first), PENDING, "queued for realisation", Requeue, held);
      } else if AlreadyRealized(id.node, env) {
        t := Step(c, m, id, Skip, envs, workloads, Fetched(env), held, false);
      } else {
        t := RunFromManifest(c, m, id, envs, workloads, refusal, w, held);
      }
      LeadsOn(c, id, s, m, t);
    }
  }

  lemma FetchMissing(c: Config, s: State, id: TaskId, envs: Envs, workloads: Workloads, held: int) returns (t: State)
    requires id.node in c.nodes && id.key !in envs && At(s, id, envs, workloads, None, held, true)
    ensures Leads(c, id, s, t) && At(t, id, envs, workloads, None, held, false)
  {
    assert Objects(s).Keys == s.envs.Keys;
    OneStepLeads(c, id, s, Agent(id, GetMissing));
    t := Apply(c, s, Agent(id, GetMissing));
    assert Objects(t) == envs;
  }
}

/** The FloxEnv reconcilers of all nodes as one transition system. A reconcile is a task that moves
    through the API calls of FloxEnvReconciler.Reconcile one at a time; spec and annotation edits, other
    nodes' reconciles, rejected patches, stale cache reads and crashes may fall between any two of them.

    A label carries everything nondeterministic about a step, so a step is Enabled or not and then
    Apply gives the next state. `envs` keeps every version of every FloxEnv ever stored: a cached read
    may return any of them. `log` and `writes` are histories that no step reads. */
module EnvMachine {
  import opened FloxApi
  import opened EnvRefs
  import opened EnvStatusRecord
  import opened ConsumerRolls

  const SERIALIZE_FAILED := "SerializeFailed"
  const FLAKE_RESOLVE_FAILED := "FlakeResolveFailed"
  const REALIZE_FAILED := "RealizeFailed"
  const RESTART_CONSUMERS_FAILED := "RestartConsumersFailed"

  /** The reconcile of one key by the agent of one node. */
  datatype TaskId = TaskId(node: string, key: Key)

  datatype RealizeResult = RealizeResult(storePath: string, envPath: string, gcrootPath: string, lock: string)

  /** Where a reconcile stands. `read` is the object its Get returned; `view` is its local copy after
      markRealizing, which the response of that patch refreshes. `since` is the length of the log when
      the workloads were listed. */
  datatype Task =
    | Fetched(read: FloxEnv)
    | CheckingDeps(read: FloxEnv, next: nat, unmet: seq<string>)
    | AwaitingSlot(read: FloxEnv)
    | HoldingSlot(read: FloxEnv)
    | Announced(read: FloxEnv, view: FloxEnv)
    | Building(read: FloxEnv, view: FloxEnv)
    | Built(read: FloxEnv, view: FloxEnv, result: RealizeResult)
    | Rolling(read: FloxEnv, view: FloxEnv, result: RealizeResult, listed: seq<Listed>, since: nat, next: nat, failed: bool)
    | Rolled(read: FloxEnv, view: FloxEnv, result: RealizeResult, listed: seq<Listed>, since: nat)

  /** A non-empty list of versions, the last of which is the stored object. */
  type History = h: seq<FloxEnv> | h != []
    witness [FloxEnv(0, EnvSpec("", [], map[]), "", EnvStatus(None, "", "", []))]

  function Current(h: History): FloxEnv { h[|h| - 1] }

  datatype Event =
    | Started(node: string, key: Key, generation: nat, lock: string)
    | Completed(node: string, key: Key, generation: nat)
    | Committed(node: string, key: Key, built: nat, observed: nat, forced: bool)
    | Stamped(id: TaskId, workload: WorkloadId, digest: string)

  datatype Config = Config(nodes: set<string>, realizeSlots: int, digest: string -> string)

  /** RealizeSlots, with zero or less meaning the default of two. */
  function Capacity(c: Config): nat { if c.realizeSlots <= 0 then 2 else c.realizeSlots }

  datatype State = State(
    envs: map<Key, History>,
    tasks: map<TaskId, Task>,
    due: set<TaskId>,
    slots: map<string, int>,
    workloads: Workloads,
    writes: map<Key, nat>,
    log: seq<Event>)

  datatype Action =
    | Get(version: nat)
    | GetMissing
    | PublishPending(accepted: bool)
    | Skip
    | Refuse(reason: string, message: string, accepted: bool)
    | ManifestReady
    | CheckDep(seen: Option<nat>)
    | HoldForDeps(accepted: bool)
    | DepsMet
    | Acquire
    | Cancel
    | Announce(accepted: bool)
    | StartRealize
    | FailRealize(message: string, accepted: bool)
    | FinishRealize(result: RealizeResult)
    | FailListing(message: string, accepted: bool)
    | ListWorkloads(listed: seq<Listed>)
    | StampNext(accepted: bool)
    | FailRoll(message: string, accepted: bool)
    | EndRoll
    | Commit(accepted: bool)

  datatype Label =
    | Create(key: Key, spec: EnvSpec, relock: string)
    | EditSpec(key: Key, spec: EnvSpec)
    | EditRelock(key: Key, value: string)
    | PutWorkload(workload: WorkloadId, template: Annotations)
    | DropWorkload(workload: WorkloadId)
    | Resync(id: TaskId)
    | Crash(node: string)
    | Agent(id: TaskId, action: Action)

  /** The reconcile in flight, if any. */
  function TaskOf(s: State, id: TaskId): Option<Task> {
    if id in s.tasks then Some(s.tasks[id]) else None
  }

  // ---------- what a reconcile computes ----------

  /** alreadyRealized. */
  predicate AlreadyRealized(node: string, env: FloxEnv) {
    && env.relock == env.status.relockToken
    && exists e :: e in env.status.realized && e.node == node && e.ready && e.observed == env.generation
  }

  function DepKey(key: Key, name: string): Key { Key(key.ns, name) }

  /** A relock is pending: the annotation differs from the last honoured value. */
  predicate Forced(read: FloxEnv) { read.relock != read.status.relockToken }

  /** The lock handed to Realize: a pending relock drops the pin. */
  function RequestedLock(read: FloxEnv): string {
    if Forced(read) then "" else read.status.lock
  }

  predicate NeedsRoll(read: FloxEnv, result: RealizeResult) {
    result.lock != "" && result.lock != read.status.lock
  }

  function Joined(names: seq<string>): string {
    if names == [] then "" else if |names| == 1 then names[0] else names[0] + ", " + Joined(names[1..])
  }

  function RealizingStatus(node: string, env: FloxEnv): EnvStatus {
    WithReady(env, False, REALIZING, "realising the env closure on " + node)
  }

  function NodeEntry(node: string, view: FloxEnv, result: RealizeResult): NodeRealization {
    NodeRealization(node, true, result.storePath, result.envPath, result.gcrootPath, view.generation)
  }

  /** The status a successful reconcile commits, edited from its local copy. */
  function CommittedStatus(node: string, read: FloxEnv, view: FloxEnv, result: RealizeResult): EnvStatus {
    EnvStatus(
      Some(Condition(True, REALIZED, "realized on " + node + " at " + result.storePath, view.generation)),
      if result.lock != "" then result.lock else view.status.lock,
      read.relock,
      Upsert(view.status.realized, NodeEntry(node, view, result)))
  }

  /** The stored object after a status patch from `base` to `edited`. */
  function Patch(h: History, base: EnvStatus, edited: EnvStatus): FloxEnv {
    Current(h).(status := MergePatch(Current(h).status, base, edited))
  }

  /** The patch of fail, waitForFlake, waitForDeps and markPending: a best-effort Ready=False. */
  function PatchNotReady(h: History, base: FloxEnv, reason: string, message: string, accepted: bool): Option<FloxEnv> {
    if accepted then Some(Patch(h, base.status, WithReady(base, False, reason, message))) else None
  }

  // ---------- one step of a reconcile ----------

  /** What a step changes: its own task (None: the reconcile returned), the stored object, the event it
      logs, whether the key is queued again, the slots it takes (+1) or returns (-1), the marker it stamps. */
  datatype Effect = Effect(
    task: Option<Task>, stored: Option<FloxEnv>, event: Option<Event>, requeue: bool, slots: int,
    stamp: Option<(WorkloadId, string)>)

  function GoTo(task: Task): Effect { Effect(Some(task), None, None, false, 0, None) }

  /** Return before the slot was taken. */
  function Leave(stored: Option<FloxEnv>, requeue: bool): Effect { Effect(None, stored, None, requeue, 0, None) }

  /** Return after the slot was taken: the deferred receive gives it back. */
  function LeaveSlot(stored: Option<FloxEnv>, requeue: bool): Effect { Effect(None, stored, None, requeue, -1, None) }

  /** The event an effect logs, as a list. */
  function Logged(e: Effect): seq<Event> {
    if e.event.Some? then [e.event.value] else []
  }

  predicate HoldsSlot(task: Task) {
    !task.Fetched? && !task.CheckingDeps? && !task.AwaitingSlot?
  }

  predicate HasView(task: Task) { HoldsSlot(task) && !task.HoldingSlot? }

  predicate HasResult(task: Task) { task.Built? || task.Rolling? || task.Rolled? }

  function Target(key: Key, read: FloxEnv): EnvRef { Coordinate(key, read) }

  predicate Enabled(c: Config, s: State, l: Label) {
    match l
    case Create(key, spec, relock) => key !in s.envs
    case EditSpec(key, spec) => key in s.envs && spec != Current(s.envs[key]).spec
    case EditRelock(key, value) => key in s.envs && value != Current(s.envs[key]).relock
    case PutWorkload(w, template) => true
    case DropWorkload(w) => true
    case Resync(id) => id.node in c.nodes
    case Crash(node) => node in c.nodes
    case Agent(id, a) => id.node in c.nodes && ActionEnabled(c, s, id, a)
  }

  predicate ActionEnabled(c: Config, s: State, id: TaskId, a: Action) {
    if a.GetMissing? then
      id in s.due && id !in s.tasks && id.key !in s.envs
    else if a.Get? then
      id in s.due && id !in s.tasks && id.key in s.envs && a.version < |s.envs[id.key]|
    else
      id in s.tasks && id.key in s.envs && TaskEnabled(c, s, id, s.tasks[id], a)
  }

  predicate TaskEnabled(c: Config, s: State, id: TaskId, t: Task, a: Action) {
    match a
    case Get(_) => false
    case GetMissing => false
    case PublishPending(_) => t.Fetched? && t.read.status.ready.None?
    case Skip => t.Fetched? && t.read.status.ready.Some? && AlreadyRealized(id.node, t.read)
    case Refuse(reason, _, _) =>
      && t.Fetched? && t.read.status.ready.Some? && !AlreadyRealized(id.node, t.read)
      && (reason == SERIALIZE_FAILED || reason == FLAKE_RESOLVE_FAILED || reason == WAITING_FOR_FLAKE)
    case ManifestReady => t.Fetched? && t.read.status.ready.Some? && !AlreadyRealized(id.node, t.read)
    case CheckDep(seen) =>
      && t.CheckingDeps? && t.next < |t.read.spec.dependsOn|
      && (seen.Some? ==>
            var dep := DepKey(id.key, t.read.spec.dependsOn[t.next]);
            dep in s.envs && seen.value < |s.envs[dep]|)
    case HoldForDeps(_) => t.CheckingDeps? && t.next >= |t.read.spec.dependsOn| && t.unmet != []
    case DepsMet => t.CheckingDeps? && t.next >= |t.read.spec.dependsOn| && t.unmet == []
    case Acquire => t.AwaitingSlot? && Occupied(s, id.node) < Capacity(c)
    case Cancel => t.AwaitingSlot?
    case Announce(_) => t.HoldingSlot?
    case StartRealize => t.Announced?
    case FailRealize(_, _) => t.Building?
    case FinishRealize(_) => t.Building?
    case FailListing(_, _) => t.Built? && NeedsRoll(t.read, t.result)
    case ListWorkloads(_) => t.Built? && NeedsRoll(t.read, t.result)
    case StampNext(_) => t.Rolling? && t.next < |t.listed|
    case FailRoll(_, _) => t.Rolling? && t.next >= |t.listed| && t.failed
    case EndRoll => t.Rolling? && t.next >= |t.listed| && !t.failed
    case Commit(_) => (t.Built? && !NeedsRoll(t.read, t.result)) || t.Rolled?
  }

  function Occupied(s: State, node: string): int {
    if node in s.slots then s.slots[node] else 0
  }

  function Act(c: Config, s: State, id: TaskId, a: Action): Effect
    requires ActionEnabled(c, s, id, a)
  {
    if a.GetMissing? then Leave(None, false)
    else if a.Get? then GoTo(Fetched(s.envs[id.key][a.version]))
    else ActOn(c, s, id, s.tasks[id], s.envs[id.key], a)
  }

  function ActOn(c: Config, s: State, id: TaskId, t: Task, h: History, a: Action): Effect
    requires TaskEnabled(c, s, id, t, a)
  {
    match a
    case PublishPending(accepted) => Leave(PatchNotReady(h, t.read, PENDING, "queued for realisation", accepted), true)
    case Skip => Leave(None, false)
    case Refuse(reason, message, accepted) => Leave(PatchNotReady(h, t.read, reason, message, accepted), true)
    case ManifestReady => GoTo(CheckingDeps(t.read, 0, []))
    case CheckDep(seen) =>
      var name := t.read.spec.dependsOn[t.next];
      var met := seen.Some? && IsReady(s.envs[DepKey(id.key, name)][seen.value]);
      GoTo(CheckingDeps(t.read, t.next + 1, if met then t.unmet else t.unmet + [name]))
    case HoldForDeps(accepted) =>
      Leave(PatchNotReady(h, t.read, WAITING_FOR_DEPS, "waiting for FloxEnvs to be Ready: " + Joined(t.unmet), accepted), true)
    case DepsMet => GoTo(AwaitingSlot(t.read))
    case Acquire => GoTo(HoldingSlot(t.read)).(slots := 1)
    case Cancel => Leave(None, true)
    case Announce(accepted) =>
      var edited := t.read.(status := RealizingStatus(id.node, t.read));
      var stored := Patch(h, t.read.status, edited.status);
      if accepted then GoTo(Announced(t.read, stored)).(stored := Some(stored))
      else GoTo(Announced(t.read, edited))
    case StartRealize =>
      GoTo(Building(t.read, t.view)).(event := Some(Started(id.node, id.key, t.read.generation, RequestedLock(t.read))))
    case FailRealize(message, accepted) => LeaveSlot(PatchNotReady(h, t.view, REALIZE_FAILED, message, accepted), true)
    case FinishRealize(result) =>
      GoTo(Built(t.read, t.view, result)).(event := Some(Completed(id.node, id.key, t.read.generation)))
    case FailListing(message, accepted) =>
      LeaveSlot(PatchNotReady(h, t.view, RESTART_CONSUMERS_FAILED, message, accepted), true)
    case ListWorkloads(listed) => GoTo(Rolling(t.read, t.view, t.result, listed, |s.log|, 0, false))
    case StampNext(accepted) =>
      var w := t.listed[t.next];
      var digest := c.digest(t.result.lock);
      var next := Rolling(t.read, t.view, t.result, t.listed, t.since, t.next + 1, t.failed);
      if !NeedsStamp(w.template, Target(id.key, t.view), digest) then GoTo(next)
      else if !accepted then GoTo(next.(failed := true))
      else GoTo(next).(event := Some(Stamped(id, w.id, digest)), stamp := Some((w.id, digest)))
    case FailRoll(message, accepted) =>
      LeaveSlot(PatchNotReady(h, t.view, RESTART_CONSUMERS_FAILED, message, accepted), true)
    case EndRoll => GoTo(Rolled(t.read, t.view, t.result, t.listed, t.since))
    case Commit(accepted) =>
      var edited := CommittedStatus(id.node, t.read, t.view, t.result);
      if accepted then
        LeaveSlot(Some(Patch(h, t.view.status, edited)), false).(
          event := Some(Committed(id.node, id.key, t.read.generation, t.view.generation, Forced(t.read))))
      else LeaveSlot(None, true)
  }

  // ---------- one step of the whole system ----------

  function Store(s: State, key: Key, env: FloxEnv): State
    requires key in s.envs
  {
    s.(envs := s.envs[key := s.envs[key] + [env]])
  }

  /** A spec or relock change passes realisationChange on every node's watch. */
  function Enqueue(c: Config, s: State, key: Key): State {
    s.(due := s.due + set n | n in c.nodes :: TaskId(n, key))
  }

  function Perform(c: Config, s: State, id: TaskId, e: Effect, taken: bool): State
    requires e.stored.Some? ==> id.key in s.envs
  {
    State(
      if e.stored.Some? then s.envs[id.key := s.envs[id.key] + [e.stored.value]] else s.envs,
      if e.task.Some? then s.tasks[id := e.task.value] else s.tasks - {id},
      (if taken then s.due - {id} else s.due) + (if e.requeue then {id} else {}),
      s.slots[id.node := Occupied(s, id.node) + e.slots],
      if e.stamp.Some? && e.stamp.value.0 in s.workloads
      then s.workloads[e.stamp.value.0 := s.workloads[e.stamp.value.0][RESTART_MARKER := e.stamp.value.1]]
      else s.workloads,
      s.writes,
      if e.event.Some? then s.log + [e.event.value] else s.log)
  }

  function Apply(c: Config, s: State, l: Label): State
    requires Enabled(c, s, l)
  {
    match l
    case Create(key, spec, relock) =>
      var env := FloxEnv(1, spec, relock, EnvStatus(None, "", "", []));
      Enqueue(c, s.(envs := s.envs[key := [env]], writes := s.writes[key := 0]), key)
    case EditSpec(key, spec) =>
      var cur := Current(s.envs[key]);
      Enqueue(c, Store(s, key, cur.(generation := cur.generation + 1, spec := spec)), key)
    case EditRelock(key, value) =>
      var stored := Store(s, key, Current(s.envs[key]).(relock := value));
      Enqueue(c, stored.(writes := s.writes[key := Writes(s, key) + 1]), key)
    case PutWorkload(w, template) => s.(workloads := s.workloads[w := template])
    case DropWorkload(w) => s.(workloads := s.workloads - {w})
    case Resync(id) => s.(due := s.due + {id})
    case Crash(node) =>
      // The process restarts: its tasks and its channel are gone, and its first List queues every key.
      s.(tasks := map id | id in s.tasks && id.node != node :: s.tasks[id],
         slots := s.slots[node := 0],
         due := s.due + (set key | key in s.envs :: TaskId(node, key)))
    case Agent(id, a) => Perform(c, s, id, Act(c, s, id, a), a.Get? || a.GetMissing?)
  }

  /** How often the relock annotation of key was written. */
  function Writes(s: State, key: Key): nat {
    if key in s.writes then s.writes[key] else 0
  }

  // ---------- frames ----------

  /** Apart from a commit, a reconcile stores nothing but a new Ready condition. */
  lemma OnlyCommitWritesMore(c: Config, s: State, id: TaskId, a: Action)
    requires ActionEnabled(c, s, id, a) && Act(c, s, id, a).stored.Some? && !a.Commit?
    ensures var cur, env := Current(s.envs[id.key]), Act(c, s, id, a).stored.value;
      env == cur.(status := cur.status.(ready := env.status.ready))
  {
    var e := ActOn(c, s, id, s.tasks[id], s.envs[id.key], a);
  }

  /** Once fetched, a task keeps the object it read; once announced, it keeps its refreshed copy. */
  lemma TaskKeepsItsCopies(c: Config, s: State, id: TaskId, a: Action)
    requires ActionEnabled(c, s, id, a) && !a.Get? && !a.GetMissing? && Act(c, s, id, a).task.Some?
    ensures var t, t' := s.tasks[id], Act(c, s, id, a).task.value;
      && t'.read == t.read
      && (HoldsSlot(t) ==> HoldsSlot(t'))
      && (HasView(t) ==> HasView(t') && t'.view == t.view)
      && (HasResult(t) ==> HasResult(t') && t'.result == t.result)
      && (HasView(t') && !HasView(t) ==> a.Announce?)
      && (HasResult(t') && !HasResult(t) ==> a.FinishRealize?)
  {
    var e := ActOn(c, s, id, s.tasks[id], s.envs[id.key], a);
  }

  /** t is reached from s by the steps ls, every one of which satisfies `ok` where it is taken. */
  ghost predicate Reaches(c: Config, ok: (State, Label) -> bool, s: State, ls: seq<Label>, t: State)
    decreases |ls|
  {
    if ls == [] then s == t
    else Enabled(c, s, ls[0]) && ok(s, ls[0]) && Reaches(c, ok, Apply(c, s, ls[0]), ls[1..], t)
  }

  lemma HeadFirst(a: seq<Label>, b: seq<Label>)
    requires a != []
    ensures a + b == [a[0]] + (a[1..] + b)
  {
  }

  lemma ReachesCons(c: Config, ok: (State, Label) -> bool, s: State, l: Label, ls: seq<Label>, t: State)
    requires Enabled(c, s, l) && ok(s, l) && Reaches(c, ok, Apply(c, s, l), ls, t)
    ensures Reaches(c, ok, s, [l] + ls, t)
  {
  }

  lemma {:induction false} ReachesCompose(
    c: Config, ok: (State, Label) -> bool, s: State, a: seq<Label>, m: State, b: seq<Label>, t: State)
    requires Reaches(c, ok, s, a, m) && Reaches(c, ok, m, b, t)
    ensures Reaches(c, ok, s, a + b, t)
    decreases |a|
  {
    if a == [] {
      assert a + b == b;
    } else {
      HeadFirst(a, b);
      ReachesCompose(c, ok, Apply(c, s, a[0]), a[1..], m, b, t);
      ReachesCons(c, ok, s, a[0], a[1..] + b, t);
    }
  }

  /** A run given by its states. */
  lemma {:induction false} ReachesAlong(c: Config, ok: (State, Label) -> bool, states: seq<State>, ls: seq<Label>)
    requires |states| == |ls| + 1
    requires forall i :: 0 <= i < |ls| ==>
      Enabled(c, states[i], ls[i]) && ok(states[i], ls[i]) && Apply(c, states[i], ls[i]) == states[i + 1]
    ensures Reaches(c, ok, states[0], ls, states[|ls|])
    decreases |ls|
  {
    if ls != [] {
      ReachesAlong(c, ok, states[1..], ls[1..]);
    }
  }

  /** No restriction on the steps. */
  ghost function AnyStep(): (State, Label) -> bool { (s, l) => true }

  /** Some run leads from s to t. */
  ghost predicate Path(c: Config, ok: (State, Label) -> bool, s: State, t: State) {
    exists ls :: Reaches(c, ok, s, ls, t)
  }

  lemma NoStepIsAPath(c: Config, ok: (State, Label) -> bool, s: State)
    ensures Path(c, ok, s, s)
  {
    assert Reaches(c, ok, s, [], s);
  }

  lemma StepIsAPath(c: Config, ok: (State, Label) -> bool, s: State, l: Label)
    requires Enabled(c, s, l) && ok(s, l)
    ensures Path(c, ok, s, Apply(c, s, l))
  {
    assert Reaches(c, ok, s, [l], Apply(c, s, l));
  }

  lemma PathsCompose(c: Config, ok: (State, Label) -> bool, s: State, m: State, t: State)
    requires Path(c, ok, s, m) && Path(c, ok, m, t)
    ensures Path(c, ok, s, t)
  {
    var a :| Reaches(c, ok, s, a, m);
    var b :| Reaches(c, ok, m, b, t);
    ReachesCompose(c, ok, s, a, m, b, t);
  }

  lemma {:induction false} ReachesUnder(
    c: Config, ok: (State, Label) -> bool, more: (State, Label) -> bool, s: State, ls: seq<Label>, t: State)
    requires Reaches(c, ok, s, ls, t) && forall x, l :: ok(x, l) ==> more(x, l)
    ensures Reaches(c, more, s, ls, t)
    decreases |ls|
  {
    if ls != [] {
      ReachesUnder(c, ok, more, Apply(c, s, ls[0]), ls[1..], t);
    }
  }

  /** What satisfies a stricter condition satisfies a weaker one. */
  lemma PathUnder(c: Config, ok: (State, Label) -> bool, more: (State, Label) -> bool, s: State, t: State)
    requires Path(c, ok, s, t) && forall x, l :: ok(x, l) ==> more(x, l)
    ensures Path(c, more, s, t)
  {
    var ls :| Reaches(c, ok, s, ls, t);
    ReachesUnder(c, ok, more, s, ls, t);
  }

  /** Stored versions stay stored. */
  ghost predicate Grows(envs: map<Key, History>, more: map<Key, History>) {
    forall k :: k in envs ==> k in more && envs[k] <= more[k]
  }

  lemma StepGrows(c: Config, s: State, l: Label)
    requires Enabled(c, s, l)
    ensures Grows(s.envs, Apply(c, s, l).envs)
  {
  }

  /** A cluster before any controller has run: objects without status, nothing in flight. */
  ghost predicate Fresh(c: Config, s: State) {
    && (forall k :: k in s.envs ==> |s.envs[k]| == 1 && s.envs[k][0].status == EnvStatus(None, "", "", []))
    && s.tasks == map[] && s.log == [] && s.writes == map[]
    && (forall n :: Occupied(s, n) == 0)
    && (forall n, k :: n in c.nodes && k in s.envs ==> TaskId(n, k) in s.due)
  }
}

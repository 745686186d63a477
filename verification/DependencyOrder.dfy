/** spec.dependsOn orders realisation: over every run in which no spec edit changes a dependsOn, a Realize
    starts only after every env of the transitive closure has completed one. Reads may be stale, nodes many,
    envs created at any time. */
module DependencyOrder {
  import opened FloxApi
  import opened EnvStatusRecord
  import opened EnvMachine

  /** The steps of runs in which every env keeps the dependsOn it was created with. */
  ghost function FixedDependencies(): (State, Label) -> bool {
    (s: State, l: Label) =>
      l.EditSpec? && l.key in s.envs ==> l.spec.dependsOn == Current(s.envs[l.key]).spec.dependsOn
  }

  /** Some node has completed a Realize of key. */
  ghost predicate Done(log: seq<Event>, key: Key) {
    exists node, generation :: Completed(node, key, generation) in log
  }

  ghost function Deps(s: State, key: Key): seq<string> {
    if key in s.envs then s.envs[key][0].spec.dependsOn else []
  }

  ghost predicate DepsDone(s: State, log: seq<Event>, key: Key, count: nat) {
    forall i :: 0 <= i < count && i < |Deps(s, key)| ==> Done(log, DepKey(key, Deps(s, key)[i]))
  }

  ghost predicate TaskOrdered(s: State, id: TaskId, t: Task) {
    && id.key in s.envs
    && t.read.spec.dependsOn == Deps(s, id.key)
    && (t.CheckingDeps? && t.unmet == [] ==> DepsDone(s, s.log, id.key, t.next))
    && (t.AwaitingSlot? || HoldsSlot(t) ==> DepsDone(s, s.log, id.key, |Deps(s, id.key)|))
    && (t.Building? ==> StartedIn(s.log, id.node, id.key, t.read.generation))
    && (HasResult(t) ==> Done(s.log, id.key))
  }

  ghost predicate StartedIn(log: seq<Event>, node: string, key: Key, generation: nat) {
    exists lock :: Started(node, key, generation, lock) in log
  }

  ghost predicate VersionsOrdered(s: State, key: Key, h: History) {
    forall i :: 0 <= i < |h| ==>
      h[i].spec.dependsOn == h[0].spec.dependsOn && (IsReady(h[i]) ==> Done(s.log, key))
  }

  /** A Started event was preceded by a completion of every direct dependency, a Completed event by its
      own start. */
  ghost predicate EventOrdered(s: State, p: nat)
    requires p < |s.log|
  {
    match s.log[p]
    case Started(node, key, generation, _) => key in s.envs && DepsDone(s, s.log[..p], key, |Deps(s, key)|)
    case Completed(node, key, generation) => key in s.envs && StartedIn(s.log[..p], node, key, generation)
    case _ => true
  }

  ghost predicate Ordered(s: State) {
    && (forall k :: k in s.envs ==> VersionsOrdered(s, k, s.envs[k]))
    && (forall id :: id in s.tasks ==> TaskOrdered(s, id, s.tasks[id]))
    && (forall p :: 0 <= p < |s.log| ==> EventOrdered(s, p))
  }

  /** No env is Ready yet and nothing has run. */
  ghost predicate NothingReady(s: State) {
    && (forall k :: k in s.envs ==> |s.envs[k]| == 1 && !IsReady(s.envs[k][0]))
    && s.tasks == map[] && s.log == []
  }

  // ---------- preservation ----------

  /** The envs of s have the same dependencies in s2, and its log extends theirs. */
  ghost predicate Extends(s: State, s2: State) {
    && s.envs.Keys <= s2.envs.Keys
    && (forall k :: k in s.envs ==> s.envs[k][0].spec == s2.envs[k][0].spec)
    && s.log <= s2.log
  }

  lemma DoneGrows(log: seq<Event>, log2: seq<Event>, key: Key)
    requires log <= log2 && Done(log, key)
    ensures Done(log2, key)
  {
  }

  lemma DepsDoneGrows(s: State, log: seq<Event>, s2: State, log2: seq<Event>, key: Key, count: nat)
    requires Extends(s, s2) && log <= log2 && key in s.envs && DepsDone(s, log, key, count)
    ensures DepsDone(s2, log2, key, count)
  {
    assert Deps(s2, key) == Deps(s, key);
    forall i | 0 <= i < count && i < |Deps(s, key)| ensures Done(log2, DepKey(key, Deps(s, key)[i])) {
      DoneGrows(log, log2, DepKey(key, Deps(s, key)[i]));
    }
  }

  lemma TaskOrderedGrows(s: State, s2: State, id: TaskId, t: Task)
    requires Extends(s, s2) && TaskOrdered(s, id, t)
    ensures TaskOrdered(s2, id, t)
  {
    if t.CheckingDeps? && t.unmet == [] { DepsDoneGrows(s, s.log, s2, s2.log, id.key, t.next); }
    if t.AwaitingSlot? || HoldsSlot(t) { DepsDoneGrows(s, s.log, s2, s2.log, id.key, |Deps(s, id.key)|); }
    if HasResult(t) { DoneGrows(s.log, s2.log, id.key); }
    if t.Building? {
      var lock :| Started(id.node, id.key, t.read.generation, lock) in s.log;
      var i :| 0 <= i < |s.log| && s.log[i] == Started(id.node, id.key, t.read.generation, lock);
      assert s2.log[i] == s.log[i];
    }
  }

  lemma EventsStayOrdered(s: State, s2: State, p: nat)
    requires Extends(s, s2) && p < |s.log| && EventOrdered(s, p)
    ensures EventOrdered(s2, p)
  {
  }

  lemma VersionsStayOrdered(s: State, s2: State, key: Key, h: History)
    requires Extends(s, s2) && VersionsOrdered(s, key, h)
    ensures VersionsOrdered(s2, key, h)
  {
  }

  lemma AgentStepExtends(c: Config, s: State, id: TaskId, a: Action)
    requires Enabled(c, s, Agent(id, a))
    ensures Extends(s, Apply(c, s, Agent(id, a)))
  {
  }

  lemma CheckedDepIsDone(c: Config, s: State, id: TaskId, a: Action)
    requires Ordered(s) && Enabled(c, s, Agent(id, a)) && a.CheckDep?
    ensures TaskOrdered(s, id, Act(c, s, id, a).task.value)
  {
    var t := s.tasks[id];
    assert TaskOrdered(s, id, t);
    var dep := DepKey(id.key, t.read.spec.dependsOn[t.next]);
    if a.seen.Some? && IsReady(s.envs[dep][a.seen.value]) {
      assert VersionsOrdered(s, dep, s.envs[dep]);
      assert Done(s.log, dep);
    }
  }

  /** The reconcile a step leaves. */
  lemma ActLeavesOrderedTask(c: Config, s: State, id: TaskId, a: Action)
    requires Ordered(s) && Enabled(c, s, Agent(id, a)) && Act(c, s, id, a).task.Some?
    ensures TaskOrdered(Apply(c, s, Agent(id, a)), id, Act(c, s, id, a).task.value)
  {
    var s2 := Apply(c, s, Agent(id, a));
    var e := Act(c, s, id, a);
    AgentStepExtends(c, s, id, a);
    if a.Get? {
      assert VersionsOrdered(s, id.key, s.envs[id.key]);
    } else if a.CheckDep? {
      CheckedDepIsDone(c, s, id, a);
      TaskOrderedGrows(s, s2, id, e.task.value);
    } else {
      var t := s.tasks[id];
      TaskKeepsItsCopies(c, s, id, a);
      TaskOrderedGrows(s, s2, id, t);
      if a.StartRealize? {
        assert Started(id.node, id.key, t.read.generation, RequestedLock(t.read)) in s2.log;
      } else if a.FinishRealize? {
        assert Completed(id.node, id.key, t.read.generation) in s2.log;
      }
    }
  }

  /** The version a step stores. */
  lemma ActStoresOrderedVersion(c: Config, s: State, id: TaskId, a: Action)
    requires Ordered(s) && Enabled(c, s, Agent(id, a)) && Act(c, s, id, a).stored.Some?
    ensures var env := Act(c, s, id, a).stored.value;
      && env.spec == Current(s.envs[id.key]).spec
      && (IsReady(env) ==> IsReady(Current(s.envs[id.key])) || Done(s.log, id.key))
  {
    var e := ActOn(c, s, id, s.tasks[id], s.envs[id.key], a);
    assert TaskOrdered(s, id, s.tasks[id]);
  }

  /** The event a step logs. */
  lemma StartIsOrdered(c: Config, s: State, id: TaskId, a: Action)
    requires Ordered(s) && Enabled(c, s, Agent(id, a)) && a.StartRealize?
    ensures EventOrdered(Apply(c, s, Agent(id, a)), |s.log|)
  {
    var s2 := Apply(c, s, Agent(id, a));
    AgentStepExtends(c, s, id, a);
    assert TaskOrdered(s, id, s.tasks[id]);
    assert s2.log[..|s.log|] == s.log;
    DepsDoneGrows(s, s.log, s2, s.log, id.key, |Deps(s, id.key)|);
  }

  lemma FinishIsOrdered(c: Config, s: State, id: TaskId, a: Action)
    requires Ordered(s) && Enabled(c, s, Agent(id, a)) && a.FinishRealize?
    ensures EventOrdered(Apply(c, s, Agent(id, a)), |s.log|)
  {
  }

  lemma OtherActionsLogNeither(c: Config, s: State, id: TaskId, a: Action)
    requires ActionEnabled(c, s, id, a) && !a.StartRealize? && !a.FinishRealize?
    ensures var e := Act(c, s, id, a).event; e.Some? ==> e.value.Committed? || e.value.Stamped?
  {
  }

  lemma AgentStepKeepsEvent(c: Config, s: State, id: TaskId, a: Action, p: nat)
    requires Ordered(s) && Enabled(c, s, Agent(id, a)) && p < |Apply(c, s, Agent(id, a)).log|
    ensures EventOrdered(Apply(c, s, Agent(id, a)), p)
  {
    if p < |s.log| {
      AgentStepExtends(c, s, id, a);
      EventsStayOrdered(s, Apply(c, s, Agent(id, a)), p);
    } else if a.StartRealize? {
      StartIsOrdered(c, s, id, a);
    } else if a.FinishRealize? {
      FinishIsOrdered(c, s, id, a);
    } else {
      OtherActionsLogNeither(c, s, id, a);
    }
  }

  lemma AgentStepKeepsTask(c: Config, s: State, id: TaskId, a: Action, i: TaskId)
    requires Ordered(s) && Enabled(c, s, Agent(id, a)) && i in Apply(c, s, Agent(id, a)).tasks
    ensures TaskOrdered(Apply(c, s, Agent(id, a)), i, Apply(c, s, Agent(id, a)).tasks[i])
  {
    if i == id {
      ActLeavesOrderedTask(c, s, id, a);
    } else {
      AgentStepExtends(c, s, id, a);
      TaskOrderedGrows(s, Apply(c, s, Agent(id, a)), i, s.tasks[i]);
    }
  }

  lemma AgentStepKeepsVersions(c: Config, s: State, id: TaskId, a: Action, k: Key)
    requires Ordered(s) && Enabled(c, s, Agent(id, a)) && k in s.envs
    ensures VersionsOrdered(Apply(c, s, Agent(id, a)), k, Apply(c, s, Agent(id, a)).envs[k])
  {
    var s2 := Apply(c, s, Agent(id, a));
    var e := Act(c, s, id, a);
    AgentStepExtends(c, s, id, a);
    VersionsStayOrdered(s, s2, k, s.envs[k]);
    if k == id.key && e.stored.Some? {
      ActStoresOrderedVersion(c, s, id, a);
      assert VersionsOrdered(s, k, s.envs[k]);
      if Done(s.log, k) { DoneGrows(s.log, s2.log, k); }
    }
  }

  lemma AgentStepKeepsOrder(c: Config, s: State, id: TaskId, a: Action)
    requires Ordered(s) && Enabled(c, s, Agent(id, a))
    ensures Ordered(Apply(c, s, Agent(id, a)))
  {
    var s2 := Apply(c, s, Agent(id, a));
    AgentStepExtends(c, s, id, a);
    forall k | k in s2.envs ensures VersionsOrdered(s2, k, s2.envs[k]) { AgentStepKeepsVersions(c, s, id, a, k); }
    forall i | i in s2.tasks ensures TaskOrdered(s2, i, s2.tasks[i]) { AgentStepKeepsTask(c, s, id, a, i); }
    forall p | 0 <= p < |s2.log| ensures EventOrdered(s2, p) { AgentStepKeepsEvent(c, s, id, a, p); }
  }

  /** Everything else leaves the log and keeps every key's dependsOn. */
  lemma OtherStepExtends(c: Config, s: State, l: Label)
    requires Ordered(s) && Enabled(c, s, l) && FixedDependencies()(s, l) && !l.Agent?
    ensures var s2 := Apply(c, s, l);
      && Extends(s, s2) && s2.log == s.log
      && (forall k :: k in s2.envs ==> VersionsOrdered(s, k, s2.envs[k]))
      && (forall i :: i in s2.tasks ==> i in s.tasks && s2.tasks[i] == s.tasks[i])
  {
    forall k | k in Apply(c, s, l).envs ensures VersionsOrdered(s, k, Apply(c, s, l).envs[k]) {
      assert k in s.envs ==> VersionsOrdered(s, k, s.envs[k]);
    }
  }

  lemma StepKeepsOrder(c: Config, s: State, l: Label)
    requires Ordered(s) && Enabled(c, s, l) && FixedDependencies()(s, l)
    ensures Ordered(Apply(c, s, l))
  {
    if l.Agent? {
      AgentStepKeepsOrder(c, s, l.id, l.action);
    } else {
      var s2 := Apply(c, s, l);
      OtherStepExtends(c, s, l);
      forall k | k in s2.envs ensures VersionsOrdered(s2, k, s2.envs[k]) {
        VersionsStayOrdered(s, s2, k, s2.envs[k]);
      }
      forall i | i in s2.tasks ensures TaskOrdered(s2, i, s2.tasks[i]) { TaskOrderedGrows(s, s2, i, s.tasks[i]); }
      forall p | 0 <= p < |s2.log| ensures EventOrdered(s2, p) { EventsStayOrdered(s, s2, p); }
    }
  }

  lemma {:induction false} RunsKeepOrder(c: Config, s: State, ls: seq<Label>, t: State)
    requires Ordered(s) && Reaches(c, FixedDependencies(), s, ls, t)
    ensures Ordered(t)
    decreases |ls|
  {
    if ls != [] {
      StepKeepsOrder(c, s, ls[0]);
      RunsKeepOrder(c, Apply(c, s, ls[0]), ls[1..], t);
    }
  }

  // ---------- what the order means ----------

  ghost predicate Declares(s: State, key: Key, dep: Key) {
    dep.ns == key.ns && dep.name in Deps(s, key)
  }

  /** Each key of the path declares the next one in its dependsOn. */
  ghost predicate DependsAlong(s: State, path: seq<Key>) {
    forall i, j :: 0 <= i && j == i + 1 && j < |path| ==> Declares(s, path[i], path[j])
  }

  /** A completion in the log has a start before it. */
  lemma StartOf(s: State, limit: nat, key: Key) returns (p: nat)
    requires Ordered(s) && limit <= |s.log| && Done(s.log[..limit], key)
    ensures p < limit && s.log[p].Started? && s.log[p].key == key && key in s.envs
  {
    var node, generation :| Completed(node, key, generation) in s.log[..limit];
    var q :| 0 <= q < limit && s.log[q] == Completed(node, key, generation);
    assert EventOrdered(s, q);
    var lock :| Started(node, key, generation, lock) in s.log[..q];
    p :| 0 <= p < q && s.log[p] == Started(node, key, generation, lock);
    assert EventOrdered(s, p);
  }

  /** When a Realize of the first key of a dependsOn path starts, every later key of the path has
      completed one. */
  lemma {:induction false} ClosureDoneBeforeStart(s: State, p: nat, path: seq<Key>)
    requires Ordered(s) && p < |s.log| && s.log[p].Started? && |path| >= 2 && s.log[p].key == path[0]
    requires DependsAlong(s, path)
    ensures Done(s.log[..p], path[|path| - 1])
    decreases |path|
  {
    assert EventOrdered(s, p);
    assert Declares(s, path[0], path[1]);
    var j :| 0 <= j < |Deps(s, path[0])| && path[1] == DepKey(path[0], Deps(s, path[0])[j]);
    assert Done(s.log[..p], path[1]);
    if |path| > 2 {
      var r := StartOf(s, p, path[1]);
      SubpathDepends(s, path, 1, |path|);
      ClosureDoneBeforeStart(s, r, path[1..]);
      DoneGrows(s.log[..r], s.log[..p], path[|path| - 1]);
    }
  }

  /** An env on a dependsOn cycle is never started. */
  lemma {:induction false} CycleNeverStarts(s: State, p: nat, cycle: seq<Key>)
    requires Ordered(s) && p < |s.log| && s.log[p].Started?
    requires |cycle| >= 2 && cycle[0] == cycle[|cycle| - 1] && DependsAlong(s, cycle)
    ensures s.log[p].key != cycle[0]
    decreases p
  {
    if s.log[p].key == cycle[0] {
      ClosureDoneBeforeStart(s, p, cycle);
      var r := StartOf(s, p, cycle[0]);
      CycleNeverStarts(s, r, cycle);
    }
  }

  /** The main result. With dependencies fixed and nothing Ready at first, in every reachable state: every
      started Realize came after a completed one of each env in its transitive closure; hence an env
      from which dependsOn reaches a cycle or a missing name has never been started. */
  lemma RealizeFollowsDependencies(c: Config, s: State, ls: seq<Label>, t: State)
    requires NothingReady(s) && Reaches(c, FixedDependencies(), s, ls, t)
    ensures forall p, path | 0 <= p < |t.log| && t.log[p].Started? && |path| >= 2 && path[0] == t.log[p].key && DependsAlong(t, path)
              :: Done(t.log[..p], path[|path| - 1])
    ensures forall p, path, i | 0 <= p < |t.log| && t.log[p].Started? && DependsAlong(t, path) && 0 <= i < |path| - 1
              && path[i] == path[|path| - 1]
              :: path[0] != t.log[p].key
    ensures forall p, path | 0 <= p < |t.log| && t.log[p].Started? && DependsAlong(t, path) && path != []
              && path[|path| - 1] !in t.envs
              :: path[0] != t.log[p].key
  {
    RunsKeepOrder(c, s, ls, t);
    forall p, path | 0 <= p < |t.log| && t.log[p].Started? && |path| >= 2 && path[0] == t.log[p].key && DependsAlong(t, path)
      ensures Done(t.log[..p], path[|path| - 1])
    {
      ClosureDoneBeforeStart(t, p, path);
    }
    forall p, path, i | 0 <= p < |t.log| && t.log[p].Started? && DependsAlong(t, path)
      && 0 <= i < |path| - 1 && path[i] == path[|path| - 1]
      ensures path[0] != t.log[p].key
    {
      ReachingACycleNeverStarts(t, p, path, i);
    }
    forall p, path | 0 <= p < |t.log| && t.log[p].Started? && DependsAlong(t, path)
      && path != [] && path[|path| - 1] !in t.envs
      ensures path[0] != t.log[p].key
    {
      ReachingAMissingNameNeverStarts(t, p, path);
    }
  }

  lemma ReachingACycleNeverStarts(s: State, p: nat, path: seq<Key>, i: nat)
    requires Ordered(s) && p < |s.log| && s.log[p].Started?
    requires DependsAlong(s, path) && i < |path| - 1 && path[i] == path[|path| - 1]
    ensures path[0] != s.log[p].key
  {
    if path[0] == s.log[p].key {
      var toCycle, cycle := path[0..i + 1], path[i..|path|];
      SubpathDepends(s, path, 0, i + 1);
      SubpathDepends(s, path, i, |path|);
      var q := p;
      if i > 0 {
        ClosureDoneBeforeStart(s, p, toCycle);
        q := StartOf(s, p, path[i]);
      }
      CycleNeverStarts(s, q, cycle);
    }
  }

  lemma ReachingAMissingNameNeverStarts(s: State, p: nat, path: seq<Key>)
    requires Ordered(s) && p < |s.log| && s.log[p].Started?
    requires DependsAlong(s, path) && path != [] && path[|path| - 1] !in s.envs
    ensures path[0] != s.log[p].key
  {
    assert EventOrdered(s, p);
    if path[0] == s.log[p].key && |path| >= 2 {
      ClosureDoneBeforeStart(s, p, path);
      var q := StartOf(s, p, path[|path| - 1]);
    }
  }

  lemma SubpathDepends(s: State, path: seq<Key>, lo: nat, hi: nat)
    requires lo <= hi <= |path| && DependsAlong(s, path)
    ensures DependsAlong(s, path[lo..hi])
  {
  }
}

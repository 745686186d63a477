/** What an entry of status.realized means, over every run of any number of node-agents with stale reads,
    rejected patches, crashes and lost updates of the whole list. */
module Soundness {
  import opened FloxApi
  import opened EnvStatusRecord
  import opened EnvMachine

  /** The entry was committed by its own node, whose Realize for that commit had completed. */
  ghost predicate Backed(log: seq<Event>, key: Key, x: NodeRealization) {
    exists built, forced :: Committed(x.node, key, built, x.observed, forced) in log
  }

  ghost predicate EntriesBacked(log: seq<Event>, key: Key, realized: seq<NodeRealization>) {
    && DistinctNodes(realized)
    && forall x :: x in realized ==> x.ready && Backed(log, key, x)
  }

  /** Every commit followed a completed Realize by the same node, of a generation at most the one
      the commit reports. */
  ghost predicate CommitsBuilt(log: seq<Event>) {
    forall node, key, built, observed, forced :: Committed(node, key, built, observed, forced) in log ==>
      built <= observed && Completed(node, key, built) in log
  }

  ghost predicate TaskSound(log: seq<Event>, latest: nat, id: TaskId, t: Task) {
    && t.read.generation <= latest
    && EntriesBacked(log, id.key, t.read.status.realized)
    && (HasView(t) ==> EntriesBacked(log, id.key, t.view.status.realized) && t.read.generation <= t.view.generation)
    && (HasResult(t) ==> Completed(id.node, id.key, t.read.generation) in log)
  }

  ghost predicate VersionsSound(log: seq<Event>, key: Key, h: History) {
    && (forall i :: 0 <= i < |h| ==> EntriesBacked(log, key, h[i].status.realized))
    && (forall i :: 0 <= i < |h| ==> h[i].generation <= Current(h).generation)
  }

  ghost predicate Sound(s: State) {
    && CommitsBuilt(s.log)
    && (forall k :: k in s.envs ==> VersionsSound(s.log, k, s.envs[k]))
    && (forall id :: id in s.tasks ==>
          id.key in s.envs && TaskSound(s.log, Current(s.envs[id.key]).generation, id, s.tasks[id]))
  }

  lemma BackedGrows(log: seq<Event>, more: seq<Event>, key: Key, realized: seq<NodeRealization>)
    requires EntriesBacked(log, key, realized)
    ensures EntriesBacked(log + more, key, realized)
  {
  }

  lemma TaskSoundGrows(log: seq<Event>, more: seq<Event>, latest: nat, id: TaskId, t: Task)
    requires TaskSound(log, latest, id, t)
    ensures TaskSound(log + more, latest, id, t)
  {
  }

  lemma VersionsSoundGrows(log: seq<Event>, more: seq<Event>, key: Key, h: History)
    requires VersionsSound(log, key, h)
    ensures VersionsSound(log + more, key, h)
  {
  }

  lemma AppendedVersionIsSound(log: seq<Event>, key: Key, h: History, env: FloxEnv)
    requires VersionsSound(log, key, h) && EntriesBacked(log, key, env.status.realized)
    requires Current(h).generation <= env.generation
    ensures VersionsSound(log, key, h + [env])
  {
  }

  /** The reconcile a step leaves is sound for the log the step leaves. */
  lemma ActLeavesSoundTask(c: Config, s: State, id: TaskId, a: Action)
    requires Sound(s) && ActionEnabled(c, s, id, a) && Act(c, s, id, a).task.Some?
    ensures var e := Act(c, s, id, a);
      TaskSound(s.log + Logged(e), Current(s.envs[id.key]).generation, id, e.task.value)
  {
    var e := Act(c, s, id, a);
    var h := s.envs[id.key];
    if a.Get? {
      assert EntriesBacked(s.log, id.key, h[a.version].status.realized);
      BackedGrows(s.log, Logged(e), id.key, h[a.version].status.realized);
    } else {
      var t := s.tasks[id];
      TaskSoundGrows(s.log, Logged(e), Current(h).generation, id, t);
      TaskKeepsItsCopies(c, s, id, a);
      if a.Announce? {
        assert EntriesBacked(s.log, id.key, h[|h| - 1].status.realized);
        BackedGrows(s.log, Logged(e), id.key, Current(h).status.realized);
      }
    }
  }

  /** The object a step stores, and the commits it logs, are sound for the log the step leaves. */
  lemma ActStoresSoundObject(c: Config, s: State, id: TaskId, a: Action)
    requires Sound(s) && ActionEnabled(c, s, id, a)
    ensures var e := Act(c, s, id, a); var log := s.log + Logged(e);
      && CommitsBuilt(log)
      && (e.stored.Some? ==> EntriesBacked(log, id.key, e.stored.value.status.realized)
                             && e.stored.value.generation == Current(s.envs[id.key]).generation)
  {
    var e := Act(c, s, id, a);
    if a.Commit? {
      if a.accepted { CommitIsSound(c, s, id, s.tasks[id]); }
    } else {
      OnlyCommitsAreCommitted(c, s, id, a);
      if e.stored.Some? {
        var h := s.envs[id.key];
        OnlyCommitWritesMore(c, s, id, a);
        assert EntriesBacked(s.log, id.key, h[|h| - 1].status.realized);
        BackedGrows(s.log, Logged(e), id.key, Current(h).status.realized);
      }
    }
  }

  lemma OnlyCommitsAreCommitted(c: Config, s: State, id: TaskId, a: Action)
    requires ActionEnabled(c, s, id, a) && !a.Commit? && CommitsBuilt(s.log)
    ensures CommitsBuilt(s.log + Logged(Act(c, s, id, a)))
  {
  }

  lemma CommitIsSound(c: Config, s: State, id: TaskId, t: Task)
    requires Sound(s) && id in s.tasks && s.tasks[id] == t && HasResult(t)
    ensures var log := s.log + [Committed(id.node, id.key, t.read.generation, t.view.generation, Forced(t.read))];
      && CommitsBuilt(log)
      && EntriesBacked(log, id.key,
           Patch(s.envs[id.key], t.view.status, CommittedStatus(id.node, t.read, t.view, t.result)).status.realized)
  {
    var commit := Committed(id.node, id.key, t.read.generation, t.view.generation, Forced(t.read));
    var log := s.log + [commit];
    var nr := NodeEntry(id.node, t.view, t.result);
    assert commit in log;
    assert Completed(id.node, id.key, t.read.generation) in log;
    assert Backed(log, id.key, nr);
    BackedGrows(s.log, [commit], id.key, t.view.status.realized);
    var h := s.envs[id.key];
    assert EntriesBacked(s.log, id.key, h[|h| - 1].status.realized);
    BackedGrows(s.log, [commit], id.key, Current(h).status.realized);
    UpsertIsMapUpdate(t.view.status.realized, nr);
    forall node, key, built, observed, forced | Committed(node, key, built, observed, forced) in log
      ensures built <= observed && Completed(node, key, built) in log
    {
      assert Committed(node, key, built, observed, forced) == commit || Committed(node, key, built, observed, forced) in s.log;
    }
  }

  lemma AgentStepKeepsOwnTask(c: Config, s: State, id: TaskId, a: Action)
    requires Sound(s) && Enabled(c, s, Agent(id, a)) && id in Apply(c, s, Agent(id, a)).tasks
    ensures var s' := Apply(c, s, Agent(id, a));
      id.key in s'.envs && TaskSound(s'.log, Current(s'.envs[id.key]).generation, id, s'.tasks[id])
  {
    ActStoresSoundObject(c, s, id, a);
    ActLeavesSoundTask(c, s, id, a);
  }

  lemma AgentStepKeepsTask(c: Config, s: State, id: TaskId, a: Action, i: TaskId)
    requires Sound(s) && Enabled(c, s, Agent(id, a)) && i in Apply(c, s, Agent(id, a)).tasks
    ensures var s' := Apply(c, s, Agent(id, a));
      i.key in s'.envs && TaskSound(s'.log, Current(s'.envs[i.key]).generation, i, s'.tasks[i])
  {
    if i == id {
      AgentStepKeepsOwnTask(c, s, id, a);
    } else {
      ActStoresSoundObject(c, s, id, a);
      TaskSoundGrows(s.log, Logged(Act(c, s, id, a)), Current(s.envs[i.key]).generation, i, s.tasks[i]);
    }
  }

  lemma AgentStepKeepsVersions(c: Config, s: State, id: TaskId, a: Action, k: Key)
    requires Sound(s) && Enabled(c, s, Agent(id, a)) && k in s.envs
    ensures var s' := Apply(c, s, Agent(id, a)); VersionsSound(s'.log, k, s'.envs[k])
  {
    var e := Act(c, s, id, a);
    VersionsSoundGrows(s.log, Logged(e), k, s.envs[k]);
    if e.stored.Some? && k == id.key {
      ActStoresSoundObject(c, s, id, a);
      AppendedVersionIsSound(s.log + Logged(e), k, s.envs[k], e.stored.value);
    }
  }

  lemma AgentStepIsSound(c: Config, s: State, id: TaskId, a: Action)
    requires Sound(s) && Enabled(c, s, Agent(id, a))
    ensures Sound(Apply(c, s, Agent(id, a)))
  {
    var s' := Apply(c, s, Agent(id, a));
    assert s'.log == s.log + Logged(Act(c, s, id, a));
    ActStoresSoundObject(c, s, id, a);
    forall k | k in s'.envs ensures VersionsSound(s'.log, k, s'.envs[k]) { AgentStepKeepsVersions(c, s, id, a, k); }
    forall i | i in s'.tasks
      ensures i.key in s'.envs && TaskSound(s'.log, Current(s'.envs[i.key]).generation, i, s'.tasks[i])
    {
      AgentStepKeepsTask(c, s, id, a, i);
    }
  }

  lemma StepIsSound(c: Config, s: State, l: Label)
    requires Sound(s) && Enabled(c, s, l)
    ensures Sound(Apply(c, s, l))
  {
    if l.Agent? {
      AgentStepIsSound(c, s, l.id, l.action);
    } else {
      var s' := Apply(c, s, l);
      assert s'.log == s.log;
      forall k | k in s'.envs ensures VersionsSound(s'.log, k, s'.envs[k]) {
        if k in s.envs { assert EntriesBacked(s.log, k, s.envs[k][|s.envs[k]| - 1].status.realized); }
      }
    }
  }

  /** In every reachable state every version of every FloxEnv, and so every stale copy of one, lists at
      most one entry per node, and each entry was written by its own node after a Realize completed,
      even though concurrent agents replace the whole list and lose each other's entries. */
  lemma {:induction false} RealizedEntriesAreBacked(
    c: Config, ok: (State, Label) -> bool, s: State, ls: seq<Label>, t: State)
    requires Sound(s) && Reaches(c, ok, s, ls, t)
    ensures Sound(t)
    decreases |ls|
  {
    if ls != [] {
      StepIsSound(c, s, ls[0]);
      RealizedEntriesAreBacked(c, ok, Apply(c, s, ls[0]), ls[1..], t);
    }
  }

  lemma FreshIsSound(c: Config, s: State)
    requires Fresh(c, s)
    ensures Sound(s)
  {
  }

  /** So from a fresh cluster, every entry of every version was committed by its own node, one per node, and
      every commit followed a build of that node, of a generation at most the one it reports. */
  lemma FreshClustersStaySound(c: Config, ok: (State, Label) -> bool, s: State, ls: seq<Label>, t: State)
    requires Fresh(c, s) && Reaches(c, ok, s, ls, t)
    ensures forall k, i :: k in t.envs && 0 <= i < |t.envs[k]| ==> EntriesBacked(t.log, k, t.envs[k][i].status.realized)
    ensures CommitsBuilt(t.log)
  {
    FreshIsSound(c, s);
    RealizedEntriesAreBacked(c, ok, s, ls, t);
  }

  // ---------- the generation an entry reports ----------

  /** markRealizing's patch is accepted, and its response refreshes the local copy to another
      generation than the one whose manifest is about to be built. */
  ghost predicate Skewed(s: State, l: Label) {
    && l.Agent? && l.action.Announce? && l.action.accepted
    && l.id in s.tasks && l.id.key in s.envs
    && Current(s.envs[l.id.key]).generation != s.tasks[l.id].read.generation
  }

  ghost function NoSkew(): (State, Label) -> bool { (s, l) => !Skewed(s, l) }

  ghost predicate Exact(s: State) {
    && (forall id :: id in s.tasks && HasView(s.tasks[id]) ==> s.tasks[id].view.generation == s.tasks[id].read.generation)
    && (forall node, key, built, observed, forced ::
          Committed(node, key, built, observed, forced) in s.log ==> built == observed)
  }

  lemma StepIsExact(c: Config, s: State, l: Label)
    requires Exact(s) && Enabled(c, s, l) && !Skewed(s, l)
    ensures Exact(Apply(c, s, l))
  {
    var s' := Apply(c, s, l);
    if l.Agent? {
      var e := Act(c, s, l.id, l.action);
      assert s'.log == s.log + Logged(e);
      forall node, key, built, observed, forced | Committed(node, key, built, observed, forced) in s'.log
        ensures built == observed
      {
        var ev := Committed(node, key, built, observed, forced);
        assert ev in s.log || e.event == Some(ev);
      }
    }
  }

  /** The main result: when no markRealizing refresh jumps to another generation, every entry
      (node, g) of every version means that this node completed a Realize of generation g. */
  lemma {:induction false} EntriesMeanBuiltGenerations(
    c: Config, s: State, ls: seq<Label>, t: State)
    requires Sound(s) && Exact(s) && Reaches(c, NoSkew(), s, ls, t)
    ensures Sound(t) && Exact(t)
    ensures forall k, i, x :: k in t.envs && 0 <= i < |t.envs[k]| && x in t.envs[k][i].status.realized ==>
              Completed(x.node, k, x.observed) in t.log
    decreases |ls|
  {
    if ls != [] {
      StepIsSound(c, s, ls[0]);
      StepIsExact(c, s, ls[0]);
      EntriesMeanBuiltGenerations(c, Apply(c, s, ls[0]), ls[1..], t);
    } else {
      forall k, i, x | k in t.envs && 0 <= i < |t.envs[k]| && x in t.envs[k][i].status.realized
        ensures Completed(x.node, k, x.observed) in t.log
      {
        assert EntriesBacked(t.log, k, t.envs[k][i].status.realized);
        assert Backed(t.log, k, x);
      }
    }
  }

  /** Steps in which the reconcile `id` is not started again. */
  ghost function SameReconcile(id: TaskId): (State, Label) -> bool {
    (s: State, l: Label) => !(l.Agent? && l.id == id && l.action.Get?)
  }

  lemma StepKeepsGenerations(c: Config, s: State, l: Label, id: TaskId)
    requires Enabled(c, s, l) && id in s.tasks && HasView(s.tasks[id])
    ensures var s' := Apply(c, s, l);
      id in s'.tasks ==>
        && HasView(s'.tasks[id])
        && s'.tasks[id].read.generation == s.tasks[id].read.generation
        && s'.tasks[id].view.generation == s.tasks[id].view.generation
  {
    if l.Agent? && l.id == id {
      var e := ActOn(c, s, id, s.tasks[id], s.envs[id.key], l.action);
    }
  }

  lemma {:induction false} TaskKeepsItsGenerations(
    c: Config, s: State, ls: seq<Label>, t: State, id: TaskId, read: nat, view: nat)
    requires Reaches(c, SameReconcile(id), s, ls, t) && id in t.tasks
    requires id in s.tasks ==> HasView(s.tasks[id]) && s.tasks[id].read.generation == read && s.tasks[id].view.generation == view
    ensures HasView(t.tasks[id]) && t.tasks[id].read.generation == read && t.tasks[id].view.generation == view
    decreases |ls|
  {
    if ls != [] {
      var m := Apply(c, s, ls[0]);
      if id in s.tasks { StepKeepsGenerations(c, s, ls[0], id); }
      TaskKeepsItsGenerations(c, m, ls[1..], t, id, read, view);
    }
  }

  /** What markRealizing leaves: the object read, and a copy refreshed iff the patch was accepted. */
  lemma AnnounceRefreshes(c: Config, s: State, id: TaskId, accepted: bool)
    requires Enabled(c, s, Agent(id, Announce(accepted)))
    ensures var m := Apply(c, s, Agent(id, Announce(accepted))); var read := s.tasks[id].read;
      && id in m.tasks && HasView(m.tasks[id]) && m.tasks[id].read == read
      && m.tasks[id].view.generation == if accepted then Current(s.envs[id.key]).generation else read.generation
  {
  }

  lemma CommitReports(c: Config, s: State, id: TaskId)
    requires Enabled(c, s, Agent(id, Commit(true)))
    ensures var e, t := Act(c, s, id, Commit(true)).event.value, s.tasks[id];
      e == Committed(id.node, id.key, t.read.generation, t.view.generation, Forced(t.read))
  {
  }

  /** Exactly when a commit is right: from the markRealizing of a reconcile, whatever happens until its
      commit, the generation it reports is the one it built iff that patch's refresh was not skewed. */
  lemma CommitIsExactIffNotSkewed(
    c: Config, s: State, ls: seq<Label>, t: State, id: TaskId, accepted: bool)
    requires Enabled(c, s, Agent(id, Announce(accepted)))
    requires Reaches(c, SameReconcile(id), Apply(c, s, Agent(id, Announce(accepted))), ls, t)
    requires Enabled(c, t, Agent(id, Commit(true)))
    ensures var e := Act(c, t, id, Commit(true)).event.value;
      && e.Committed? && e.built == s.tasks[id].read.generation
      && (e.observed == e.built <==> !Skewed(s, Agent(id, Announce(accepted))))
  {
    var m := Apply(c, s, Agent(id, Announce(accepted)));
    AnnounceRefreshes(c, s, id, accepted);
    TaskKeepsItsGenerations(c, m, ls, t, id, m.tasks[id].read.generation, m.tasks[id].view.generation);
    CommitReports(c, t, id);
  }
}

/** What stands behind a reconcile that does nothing: the generation it read was committed, and where no refresh
    was skewed, built, by its own node. */
module Delivered {
  import opened FloxApi
  import opened EnvMachine
  import opened Soundness
  import Relock

  /** A reconcile ends at the short-circuit exactly when the relock it read was honoured and an entry of its
      node is ready and of the very generation it read. */
  lemma SkipsExactlyTheCurrent(c: Config, s: State, id: TaskId)
    requires id.node in c.nodes && id.key in s.envs && id in s.tasks && s.tasks[id].Fetched?
    requires s.tasks[id].read.status.ready.Some?
    ensures var read := s.tasks[id].read;
      Enabled(c, s, Agent(id, Skip)) <==>
        && read.relock == read.status.relockToken
        && exists i :: 0 <= i < |read.status.realized|
             && read.status.realized[i].node == id.node && read.status.realized[i].ready
             && read.status.realized[i].observed == read.generation
  {
    var read := s.tasks[id].read;
    if e :| e in read.status.realized && e.node == id.node && e.ready && e.observed == read.generation {
      var i :| 0 <= i < |read.status.realized| && read.status.realized[i] == e;
    }
    if i :| 0 <= i < |read.status.realized|
            && read.status.realized[i].node == id.node && read.status.realized[i].ready
            && read.status.realized[i].observed == read.generation
    {
      assert read.status.realized[i] in read.status.realized;
    }
  }

  lemma SkippedIsBacked(c: Config, t: State, id: TaskId)
    requires Sound(t) && Enabled(c, t, Agent(id, Skip))
    ensures exists built, forced :: Committed(id.node, id.key, built, t.tasks[id].read.generation, forced) in t.log
  {
    SkipsExactlyTheCurrent(c, t, id);
    var read := t.tasks[id].read;
    assert TaskSound(t.log, Current(t.envs[id.key]).generation, id, t.tasks[id]);
    var i :| 0 <= i < |read.status.realized| && read.status.realized[i].node == id.node && read.status.realized[i].ready
             && read.status.realized[i].observed == read.generation;
    assert read.status.realized[i] in read.status.realized;
    assert Backed(t.log, id.key, read.status.realized[i]);
  }

  /** Over every run of any number of agents: who skips a generation had it committed. */
  lemma SkippedIsCommitted(c: Config, ok: (State, Label) -> bool, s: State, ls: seq<Label>, t: State, id: TaskId)
    requires Fresh(c, s) && Reaches(c, ok, s, ls, t) && Enabled(c, t, Agent(id, Skip))
    ensures exists built, forced :: Committed(id.node, id.key, built, t.tasks[id].read.generation, forced) in t.log
  {
    FreshIsSound(c, s);
    RealizedEntriesAreBacked(c, ok, s, ls, t);
    SkippedIsBacked(c, t, id);
  }

  // ---------- after an edit ----------

  /** No commit, and no copy a commit will report from, is of a later generation than the stored object. */
  ghost predicate NotAhead(s: State) {
    && (forall e: Event :: e in s.log && e.Committed? ==> e.key in s.envs && e.observed <= Current(s.envs[e.key]).generation)
    && (forall id :: id in s.tasks ==> TaskBehind(s, id, s.tasks[id]))
    && (forall k :: k in s.envs ==> forall i :: 0 <= i < |s.envs[k]| ==> s.envs[k][i].generation <= Current(s.envs[k]).generation)
  }

  /** What one step does to the versions of a key. */
  ghost predicate Ahead(h: History, more: History) {
    && Current(h).generation <= Current(more).generation
    && forall i :: 0 <= i < |more| ==> more[i].generation <= Current(more).generation
  }

  lemma ActGrows(c: Config, s: State, id: TaskId, a: Action)
    requires NotAhead(s) && Enabled(c, s, Agent(id, a)) && id.key in s.envs
    ensures var t := Apply(c, s, Agent(id, a)); id.key in t.envs && Ahead(s.envs[id.key], t.envs[id.key])
  {
  }

  lemma GenerationsGrow(c: Config, s: State, l: Label, k: Key)
    requires NotAhead(s) && Enabled(c, s, l) && k in s.envs
    ensures var t := Apply(c, s, l); k in t.envs && Ahead(s.envs[k], t.envs[k])
  {
    if l.Agent? && l.id.key == k {
      ActGrows(c, s, l.id, l.action);
    } else if !l.Agent? {
      EditGrows(c, s, l, k);
    }
  }

  lemma EditGrows(c: Config, s: State, l: Label, k: Key)
    requires NotAhead(s) && Enabled(c, s, l) && k in s.envs && !l.Agent?
    ensures var t := Apply(c, s, l); k in t.envs && Ahead(s.envs[k], t.envs[k])
  {
  }

  lemma OwnTaskIsNotAhead(c: Config, s: State, id: TaskId, a: Action)
    requires NotAhead(s) && Enabled(c, s, Agent(id, a)) && Act(c, s, id, a).task.Some?
    ensures var task := Act(c, s, id, a).task.value;
      id.key in s.envs && task.read.generation <= Current(s.envs[id.key]).generation
      && (HasView(task) ==> task.view.generation <= Current(s.envs[id.key]).generation)
  {
    if !a.Get? { TaskKeepsItsCopies(c, s, id, a); }
  }

  lemma LoggedIsNotAhead(c: Config, s: State, id: TaskId, a: Action)
    requires NotAhead(s) && Enabled(c, s, Agent(id, a)) && Act(c, s, id, a).event.Some?
    ensures var e := Act(c, s, id, a).event.value;
      e.Committed? ==> e.key == id.key && id.key in s.envs && e.observed <= Current(s.envs[id.key]).generation
  {
  }

  lemma OtherTaskStays(c: Config, s: State, l: Label, i: TaskId)
    requires Enabled(c, s, l) && i in Apply(c, s, l).tasks && !(l.Agent? && l.id == i)
    ensures i in s.tasks && Apply(c, s, l).tasks[i] == s.tasks[i]
  {
  }

  lemma OwnTaskStays(c: Config, s: State, id: TaskId, a: Action)
    requires Enabled(c, s, Agent(id, a)) && id in Apply(c, s, Agent(id, a)).tasks
    ensures Act(c, s, id, a).task == Some(Apply(c, s, Agent(id, a)).tasks[id])
  {
  }

  ghost predicate TaskBehind(s: State, id: TaskId, t: Task) {
    id.key in s.envs && t.read.generation <= Current(s.envs[id.key]).generation
    && (HasView(t) ==> t.view.generation <= Current(s.envs[id.key]).generation)
  }

  lemma TaskStaysBehind(c: Config, s: State, l: Label, i: TaskId)
    requires NotAhead(s) && Enabled(c, s, l) && i in Apply(c, s, l).tasks
    ensures TaskBehind(Apply(c, s, l), i, Apply(c, s, l).tasks[i])
  {
    if l.Agent? && i == l.id {
      OwnTaskStays(c, s, l.id, l.action);
      OwnTaskIsNotAhead(c, s, l.id, l.action);
    } else {
      OtherTaskStays(c, s, l, i);
    }
    GenerationsGrow(c, s, l, i.key);
  }

  lemma LogOnlyGrowsByActs(c: Config, s: State, l: Label, e: Event)
    requires Enabled(c, s, l) && e in Apply(c, s, l).log && e !in s.log
    ensures l.Agent? && Act(c, s, l.id, l.action).event == Some(e)
  {
  }

  lemma CommitStaysBehind(c: Config, s: State, l: Label, e: Event)
    requires NotAhead(s) && Enabled(c, s, l) && e in Apply(c, s, l).log && e.Committed?
    ensures var t := Apply(c, s, l); e.key in t.envs && e.observed <= Current(t.envs[e.key]).generation
  {
    if e !in s.log {
      LogOnlyGrowsByActs(c, s, l, e);
      LoggedIsNotAhead(c, s, l.id, l.action);
    }
    GenerationsGrow(c, s, l, e.key);
  }

  lemma VersionsStayBehind(c: Config, s: State, l: Label, k: Key)
    requires NotAhead(s) && Enabled(c, s, l) && k in Apply(c, s, l).envs
    ensures var h := Apply(c, s, l).envs[k]; forall i :: 0 <= i < |h| ==> h[i].generation <= Current(h).generation
  {
    if k in s.envs { GenerationsGrow(c, s, l, k); }
  }

  lemma StepIsNotAhead(c: Config, s: State, l: Label)
    requires NotAhead(s) && Enabled(c, s, l)
    ensures NotAhead(Apply(c, s, l))
  {
    var t := Apply(c, s, l);
    forall i | i in t.tasks ensures TaskBehind(t, i, t.tasks[i]) { TaskStaysBehind(c, s, l, i); }
    forall k | k in t.envs ensures forall i :: 0 <= i < |t.envs[k]| ==> t.envs[k][i].generation <= Current(t.envs[k]).generation {
      VersionsStayBehind(c, s, l, k);
    }
    forall e: Event | e in t.log && e.Committed? ensures e.key in t.envs && e.observed <= Current(t.envs[e.key]).generation {
      CommitStaysBehind(c, s, l, e);
    }
  }

  lemma {:induction false} RunsAreNotAhead(c: Config, ok: (State, Label) -> bool, s: State, ls: seq<Label>, t: State)
    requires NotAhead(s) && Reaches(c, ok, s, ls, t)
    ensures NotAhead(t)
    decreases |ls|
  {
    if ls != [] {
      StepIsNotAhead(c, s, ls[0]);
      RunsAreNotAhead(c, ok, Apply(c, s, ls[0]), ls[1..], t);
    }
  }

  /** Steps in which no commit of this reconcile is accepted. */
  ghost function NoCommitOf(id: TaskId): (State, Label) -> bool {
    (s: State, l: Label) => l != Agent(id, Commit(true))
  }

  ghost predicate NoneReports(log: seq<Event>, id: TaskId, generation: nat) {
    forall e: Event :: e in log && e.Committed? && e.node == id.node && e.key == id.key ==> e.observed < generation
  }

  lemma StillNoneReports(c: Config, s: State, l: Label, id: TaskId, generation: nat)
    requires NoneReports(s.log, id, generation) && Enabled(c, s, l) && NoCommitOf(id)(s, l)
    ensures NoneReports(Apply(c, s, l).log, id, generation)
  {
    forall e: Event | e in Apply(c, s, l).log && e.Committed? && e.node == id.node && e.key == id.key ensures e.observed < generation {
      if e !in s.log {
        LogOnlyGrowsByActs(c, s, l, e);
      }
    }
  }

  lemma {:induction false} StillUncommitted(c: Config, s: State, ls: seq<Label>, t: State, id: TaskId, generation: nat)
    requires NoneReports(s.log, id, generation) && Reaches(c, NoCommitOf(id), s, ls, t)
    ensures NoneReports(t.log, id, generation)
    decreases |ls|
  {
    if ls != [] {
      StillNoneReports(c, s, ls[0], id, generation);
      StillUncommitted(c, Apply(c, s, ls[0]), ls[1..], t, id, generation);
    }
  }

  /** An edited spec is not taken for realised: from the edit until an agent's next commit, whatever else
      happens, no reconcile of that agent that read the edited object or a later one is cut short. */
  lemma EditIsNotSkipped(
    c: Config, ok: (State, Label) -> bool, s: State, a: seq<Label>, m: State, key: Key, spec: EnvSpec, b: seq<Label>, t: State, id: TaskId)
    requires Fresh(c, s) && Reaches(c, ok, s, a, m) && Enabled(c, m, EditSpec(key, spec)) && id.key == key
    requires Reaches(c, NoCommitOf(id), Apply(c, m, EditSpec(key, spec)), b, t) && id in t.tasks
    requires t.tasks[id].read.generation > Current(m.envs[key]).generation
    ensures !Enabled(c, t, Agent(id, Skip))
  {
    var edited := Apply(c, m, EditSpec(key, spec));
    FreshIsSound(c, s);
    RealizedEntriesAreBacked(c, ok, s, a, m);
    RunsAreNotAhead(c, ok, s, a, m);
    StepIsSound(c, m, EditSpec(key, spec));
    RealizedEntriesAreBacked(c, NoCommitOf(id), edited, b, t);
    assert edited.log == m.log;
    StillUncommitted(c, edited, b, t, id, Current(m.envs[key]).generation + 1);
    if Enabled(c, t, Agent(id, Skip)) { SkippedIsBacked(c, t, id); }
  }

  // ---------- one agent ----------

  ghost function FreshAndUnskewed(): (State, Label) -> bool {
    (s: State, l: Label) => Relock.FreshReads()(s, l) && !Skewed(s, l)
  }

  /** The main result: one agent that reads its own writes, no refresh skewed, from a fresh cluster. Whenever an
      env is neither queued nor in flight, the agent completed a Realize of the very generation stored. */
  lemma AtRestMeansBuilt(c: Config, node: string, s: State, ls: seq<Label>, t: State, key: Key)
    requires c.nodes == {node} && Fresh(c, s) && Reaches(c, FreshAndUnskewed(), s, ls, t)
    requires key in t.envs && TaskId(node, key) !in t.due && TaskId(node, key) !in t.tasks
    ensures Completed(node, key, Current(t.envs[key]).generation) in t.log
  {
    ReachesUnder(c, FreshAndUnskewed(), Relock.FreshReads(), s, ls, t);
    ReachesUnder(c, FreshAndUnskewed(), NoSkew(), s, ls, t);
    Relock.RelockIsNeitherLostNorRepeated(c, node, s, ls, t, key);
    FreshIsSound(c, s);
    EntriesMeanBuiltGenerations(c, s, ls, t);
    var env := Current(t.envs[key]);
    var e :| e in env.status.realized && e.node == node && e.observed == env.generation;
  }
}

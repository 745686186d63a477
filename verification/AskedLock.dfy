/** Which lock a Realize is asked for, and what a commit that honours a relock was built from. */
module AskedLock {
  import opened FloxApi
  import opened EnvStatusRecord
  import opened EnvMachine
  import Relock
  import Soundness

  predicate HasStarted(t: Task) { t.Building? || HasResult(t) }

  /** The reconcile asks for no lock, so that flox locks afresh, if the annotation it read differs from the token
      it read, and for the pin it read otherwise. */
  predicate Asks(read: FloxEnv, lock: string) {
    lock == if read.relock == read.status.relockToken then read.status.lock else ""
  }

  lemma StartAsks(c: Config, s: State, id: TaskId)
    requires Enabled(c, s, Agent(id, StartRealize))
    ensures var t, e := Apply(c, s, Agent(id, StartRealize)), Act(c, s, id, StartRealize).event; var read := s.tasks[id].read;
      && e.Some? && e.value.Started? && t.log == s.log + [e.value]
      && e.value.node == id.node && e.value.key == id.key && e.value.generation == read.generation
      && Asks(read, e.value.lock)
      && id in t.tasks && HasStarted(t.tasks[id]) && t.tasks[id].read == read
  {
  }

  // ---------- every start of a run ----------

  /** The start was asked for by some stored version of the env, at the generation it names. */
  ghost predicate AskedFor(envs: map<Key, History>, e: Event)
    requires e.Started?
  {
    e.key in envs && exists i :: 0 <= i < |envs[e.key]| && envs[e.key][i].generation == e.generation && Asks(envs[e.key][i], e.lock)
  }

  ghost predicate AllAsked(s: State) {
    && (forall e: Event :: e in s.log && e.Started? ==> AskedFor(s.envs, e))
    && (forall id :: id in s.tasks ==> id.key in s.envs && s.tasks[id].read in s.envs[id.key])
  }

  lemma StaysAsked(envs: map<Key, History>, more: map<Key, History>, e: Event)
    requires e.Started? && AskedFor(envs, e) && Grows(envs, more)
    ensures AskedFor(more, e)
  {
    var i :| 0 <= i < |envs[e.key]| && envs[e.key][i].generation == e.generation && Asks(envs[e.key][i], e.lock);
    assert more[e.key][i] == envs[e.key][i];
  }

  lemma LoggedIsAsked(c: Config, s: State, l: Label, e: Event)
    requires AllAsked(s) && Enabled(c, s, l) && e in Apply(c, s, l).log && e !in s.log && e.Started?
    ensures AskedFor(s.envs, e)
  {
    var read := s.tasks[l.id].read;
    var i :| 0 <= i < |s.envs[l.id.key]| && s.envs[l.id.key][i] == read;
    StartAsks(c, s, l.id);
  }

  lemma ReadIsStored(c: Config, s: State, l: Label, id: TaskId)
    requires AllAsked(s) && Enabled(c, s, l) && id in Apply(c, s, l).tasks
    ensures id.key in s.envs && Apply(c, s, l).tasks[id].read in s.envs[id.key]
  {
    if l.Agent? && l.id == id && !l.action.Get? { TaskKeepsItsCopies(c, s, id, l.action); }
  }

  lemma StepIsAsked(c: Config, s: State, l: Label)
    requires AllAsked(s) && Enabled(c, s, l)
    ensures AllAsked(Apply(c, s, l))
  {
    var t := Apply(c, s, l);
    StepGrows(c, s, l);
    forall e: Event | e in t.log && e.Started? ensures AskedFor(t.envs, e) {
      if e !in s.log { LoggedIsAsked(c, s, l, e); }
      StaysAsked(s.envs, t.envs, e);
    }
    forall id | id in t.tasks ensures id.key in t.envs && t.tasks[id].read in t.envs[id.key] {
      ReadIsStored(c, s, l, id);
      var i :| 0 <= i < |s.envs[id.key]| && s.envs[id.key][i] == t.tasks[id].read;
      assert t.envs[id.key][i] == s.envs[id.key][i];
    }
  }

  /** Over every run, each Realize that was started was asked for lock "" or for a stored pin, as a stored
      version of its env at that generation says. */
  lemma {:induction false} EveryStartIsAsked(c: Config, ok: (State, Label) -> bool, s: State, ls: seq<Label>, t: State)
    requires AllAsked(s) && Reaches(c, ok, s, ls, t)
    ensures AllAsked(t)
    decreases |ls|
  {
    if ls != [] {
      StepIsAsked(c, s, ls[0]);
      EveryStartIsAsked(c, ok, Apply(c, s, ls[0]), ls[1..], t);
    }
  }

  // ---------- the start of a commit ----------

  /** `from` is where the reconcile `id`, as it stands in t, started its Realize. */
  ghost predicate StartedAt(c: Config, from: State, after: seq<Label>, t: State, id: TaskId) {
    Enabled(c, from, Agent(id, StartRealize))
    && Reaches(c, Soundness.SameReconcile(id), Apply(c, from, Agent(id, StartRealize)), after, t)
  }

  lemma OwnStart(c: Config, s: State, id: TaskId, a: Action)
    requires Enabled(c, s, Agent(id, a)) && Act(c, s, id, a).task.Some? && HasStarted(Act(c, s, id, a).task.value) && !a.StartRealize?
    ensures id in s.tasks && HasStarted(s.tasks[id]) && !a.Get?
  {
  }

  lemma NotStartedBefore(c: Config, s: State, l: Label, id: TaskId)
    requires Enabled(c, s, l) && id in Apply(c, s, l).tasks && HasStarted(Apply(c, s, l).tasks[id]) && l != Agent(id, StartRealize)
    ensures id in s.tasks && HasStarted(s.tasks[id]) && Soundness.SameReconcile(id)(s, l)
  {
    if l.Agent? && l.id == id {
      assert Act(c, s, id, l.action).task == Some(Apply(c, s, l).tasks[id]);
      OwnStart(c, s, id, l.action);
    }
  }

  /** Every reconcile past its start began it somewhere in the run, or had begun it before. */
  lemma {:induction false} FindStart(c: Config, ok: (State, Label) -> bool, s: State, ls: seq<Label>, t: State, id: TaskId)
    returns (i: nat, from: State)
    requires Reaches(c, ok, s, ls, t) && id in t.tasks && HasStarted(t.tasks[id])
    ensures i <= |ls|
    ensures i < |ls| ==>
              ls[i] == Agent(id, StartRealize) && Reaches(c, ok, s, ls[..i], from) && StartedAt(c, from, ls[i + 1..], t, id)
    ensures i == |ls| ==> id in s.tasks && HasStarted(s.tasks[id]) && Reaches(c, Soundness.SameReconcile(id), s, ls, t)
    decreases |ls|
  {
    if ls == [] {
      i, from := 0, s;
    } else {
      var m := Apply(c, s, ls[0]);
      var rest := ls[1..];
      i, from := FindStart(c, ok, m, rest, t, id);
      assert ls == [ls[0]] + rest;
      if i < |rest| {
        assert ls[..i + 1] == [ls[0]] + rest[..i] && ls[i + 1 + 1..] == rest[i + 1..];
        ReachesCons(c, ok, s, ls[0], rest[..i], from);
        i := i + 1;
      } else if ls[0] == Agent(id, StartRealize) {
        i, from := 0, s;
        assert ls[..0] == [] && ls[1..] == rest;
      } else {
        NotStartedBefore(c, s, ls[0], id);
        ReachesCons(c, Soundness.SameReconcile(id), s, ls[0], rest, t);
        i := |ls|;
      }
    }
  }

  lemma StepKeepsRead(c: Config, s: State, l: Label, id: TaskId)
    requires Enabled(c, s, l) && Soundness.SameReconcile(id)(s, l) && id in Apply(c, s, l).tasks
    ensures id in s.tasks && Apply(c, s, l).tasks[id].read == s.tasks[id].read && s.log <= Apply(c, s, l).log
  {
    if l.Agent? && l.id == id { TaskKeepsItsCopies(c, s, id, l.action); }
  }

  lemma {:induction false} RunKeepsRead(c: Config, s: State, ls: seq<Label>, t: State, id: TaskId)
    requires Reaches(c, Soundness.SameReconcile(id), s, ls, t) && id in t.tasks
    ensures id in s.tasks && t.tasks[id].read == s.tasks[id].read && s.log <= t.log
    decreases |ls|
  {
    if ls != [] {
      RunKeepsRead(c, Apply(c, s, ls[0]), ls[1..], t, id);
      StepKeepsRead(c, s, ls[0], id);
    }
  }

  /** What the start of a reconcile says of its commit. */
  lemma CommitOfAStart(c: Config, from: State, after: seq<Label>, t: State, id: TaskId) returns (lock: string)
    requires StartedAt(c, from, after, t, id) && id in t.tasks
    ensures var read := t.tasks[id].read; var e := Started(id.node, id.key, read.generation, lock);
      && Apply(c, from, Agent(id, StartRealize)).log == from.log + [e] && e in t.log && Asks(read, lock)
  {
    StartAsks(c, from, id);
    var started := Apply(c, from, Agent(id, StartRealize));
    RunKeepsRead(c, started, after, t, id);
    lock := Act(c, from, id, StartRealize).event.value.lock;
    assert started.log[|from.log|] == Started(id.node, id.key, t.tasks[id].read.generation, lock);
  }

  lemma CommitReports(c: Config, t: State, id: TaskId)
    requires Enabled(c, t, Agent(id, Commit(true)))
    ensures id in t.tasks && HasStarted(t.tasks[id])
    ensures var e := Act(c, t, id, Commit(true)).event; e.Some? && e.value.Committed? && e.value.built == t.tasks[id].read.generation
  {
  }

  /** Over every run: a commit was preceded by a start of the same reconcile, of the generation it built, asked
      for lock "" iff the relock it read was not honoured or there was no pin, and for that pin otherwise. */
  lemma CommitFollowsItsStart(c: Config, ok: (State, Label) -> bool, s: State, ls: seq<Label>, t: State, id: TaskId)
    returns (i: nat, from: State, lock: string)
    requires s.tasks == map[] && Reaches(c, ok, s, ls, t) && Enabled(c, t, Agent(id, Commit(true)))
    ensures i < |ls| && ls[i] == Agent(id, StartRealize) && Reaches(c, ok, s, ls[..i], from) && StartedAt(c, from, ls[i + 1..], t, id)
    ensures id in t.tasks
    ensures var read, built := t.tasks[id].read, Act(c, t, id, Commit(true)).event.value.built;
      && Apply(c, from, ls[i]).log == from.log + [Started(id.node, id.key, built, lock)]
      && Started(id.node, id.key, built, lock) in t.log
      && (lock == "" <==> read.relock != read.status.relockToken || read.status.lock == "")
      && (lock != "" ==> lock == read.status.lock)
  {
    CommitReports(c, t, id);
    i, from := FindStart(c, ok, s, ls, t, id);
    lock := CommitOfAStart(c, from, ls[i + 1..], t, id);
  }

  lemma CommitMovesToken(c: Config, t: State, id: TaskId)
    requires Enabled(c, t, Agent(id, Commit(true)))
    requires var before, after := Current(t.envs[id.key]), Act(c, t, id, Commit(true)).stored.value;
      after.status.relockToken != before.status.relockToken
    ensures id in t.tasks && HasView(t.tasks[id]) && t.tasks[id].read.relock != t.tasks[id].view.status.relockToken
  {
  }

  /** Over every run: a commit that moves status.relockToken was asked for lock "", unless its refreshed copy
      brought in a token other than the one it read. */
  lemma MovedTokenWasAsked(c: Config, ok: (State, Label) -> bool, s: State, ls: seq<Label>, t: State, id: TaskId)
    returns (i: nat, from: State, lock: string)
    requires s.tasks == map[] && Reaches(c, ok, s, ls, t) && Enabled(c, t, Agent(id, Commit(true)))
    requires var before, after := Current(t.envs[id.key]), Act(c, t, id, Commit(true)).stored.value;
      after.status.relockToken != before.status.relockToken
    ensures i < |ls| && ls[i] == Agent(id, StartRealize) && StartedAt(c, from, ls[i + 1..], t, id)
    ensures id in t.tasks
    ensures Apply(c, from, ls[i]).log == from.log + [Started(id.node, id.key, t.tasks[id].read.generation, lock)]
    ensures HasView(t.tasks[id])
    ensures lock == "" || t.tasks[id].view.status.relockToken != t.tasks[id].read.status.relockToken
  {
    i, from, lock := CommitFollowsItsStart(c, ok, s, ls, t, id);
    CommitMovesToken(c, t, id);
  }

  lemma ReadsItsOwnToken(c: Config, node: string, s: State, ls: seq<Label>, t: State, id: TaskId)
    requires c.nodes == {node} && Relock.Restarted(s, node) && Reaches(c, Relock.FreshReads(), s, ls, t)
    requires id in t.tasks && HasView(t.tasks[id])
    ensures t.tasks[id].view.status.relockToken == t.tasks[id].read.status.relockToken
  {
    Relock.RunsOwn(c, node, s, ls, t);
    assert Relock.TaskOwns(t, id, t.tasks[id]);
  }

  /** One agent that reads its own writes: every commit that honours a relock was asked for lock "". */
  lemma HonouredRelockWasFresh(c: Config, node: string, s: State, ls: seq<Label>, t: State, id: TaskId)
    returns (i: nat, from: State)
    requires c.nodes == {node} && Relock.Restarted(s, node) && Reaches(c, Relock.FreshReads(), s, ls, t)
    requires Enabled(c, t, Agent(id, Commit(true)))
    requires var before, after := Current(t.envs[id.key]), Act(c, t, id, Commit(true)).stored.value;
      after.status.relockToken != before.status.relockToken
    ensures i < |ls| && ls[i] == Agent(id, StartRealize) && StartedAt(c, from, ls[i + 1..], t, id)
    ensures id in t.tasks
    ensures Apply(c, from, ls[i]).log == from.log + [Started(id.node, id.key, t.tasks[id].read.generation, "")]
  {
    var lock;
    i, from, lock := MovedTokenWasAsked(c, Relock.FreshReads(), s, ls, t, id);
    ReadsItsOwnToken(c, node, s, ls, t, id);
  }
}

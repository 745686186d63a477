/** The realise slots of a node: over every interleaving, the channel holds one token per reconcile past
    its acquire and not yet returned, and never more than its capacity. */
module SlotDiscipline {
  import opened FiniteSets
  import opened FloxApi
  import opened EnvMachine

  ghost function Holders(s: State, node: string): set<TaskId> {
    set id | id in s.tasks && id.node == node && HoldsSlot(s.tasks[id])
  }

  /** The reconciles of a node whose build is running. */
  ghost function Realising(s: State, node: string): set<TaskId> {
    set id | id in s.tasks && id.node == node && s.tasks[id].Building?
  }

  ghost predicate Balanced(c: Config, s: State) {
    forall node :: Occupied(s, node) == |Holders(s, node)| <= Capacity(c)
  }

  function Weight(task: Option<Task>): int {
    if task.Some? && HoldsSlot(task.value) then 1 else 0
  }

  /** Every step of a reconcile moves the channel by what it moves its own holding: a return takes back
      exactly the token its reconcile had put in, and one held on a flake or on dependencies had none. */
  lemma StepMovesItsOwnToken(c: Config, s: State, id: TaskId, a: Action)
    requires ActionEnabled(c, s, id, a)
    ensures var e := Act(c, s, id, a);
      && e.slots == Weight(e.task) - Weight(TaskOf(s, id))
      && (e.slots == 1 ==> Occupied(s, id.node) < Capacity(c))
      && (a.Refuse? || a.HoldForDeps? || a.PublishPending? || a.Skip? || a.Cancel? ==> Weight(TaskOf(s, id)) == 0)
  {
    if !a.Get? && !a.GetMissing? {
      var e := ActOn(c, s, id, s.tasks[id], s.envs[id.key], a);
    }
  }

  /** Apart from its own task, a step of `id` leaves every task alone. */
  lemma HoldersAfter(c: Config, s: State, id: TaskId, a: Action)
    requires Enabled(c, s, Agent(id, a))
    ensures var s', e := Apply(c, s, Agent(id, a)), Act(c, s, id, a);
      && Holders(s', id.node) == (if Weight(e.task) == 1 then Holders(s, id.node) + {id} else Holders(s, id.node) - {id})
      && (id in Holders(s, id.node) <==> Weight(TaskOf(s, id)) == 1)
  {
    var s', e := Apply(c, s, Agent(id, a)), Act(c, s, id, a);
    assert forall i :: i != id ==> (i in s'.tasks <==> i in s.tasks) && (i in s.tasks ==> s'.tasks[i] == s.tasks[i]);
  }

  lemma OtherNodesUntouched(c: Config, s: State, id: TaskId, a: Action, node: string)
    requires Enabled(c, s, Agent(id, a)) && node != id.node
    ensures var s' := Apply(c, s, Agent(id, a));
      Holders(s', node) == Holders(s, node) && Occupied(s', node) == Occupied(s, node)
  {
    var s' := Apply(c, s, Agent(id, a));
    assert forall i :: i != id ==> (i in s'.tasks <==> i in s.tasks) && (i in s.tasks ==> s'.tasks[i] == s.tasks[i]);
  }

  lemma OwnNodeMovesTogether(c: Config, s: State, id: TaskId, a: Action)
    requires Enabled(c, s, Agent(id, a))
    ensures var s' := Apply(c, s, Agent(id, a)); var moved := Occupied(s', id.node) - Occupied(s, id.node);
      && |Holders(s', id.node)| == |Holders(s, id.node)| + moved
      && moved <= 1 && (moved == 1 ==> Occupied(s, id.node) < Capacity(c))
  {
    HoldersAfter(c, s, id, a);
    StepMovesItsOwnToken(c, s, id, a);
  }

  lemma AgentStepKeepsBalance(c: Config, s: State, id: TaskId, a: Action, node: string)
    requires Occupied(s, node) == |Holders(s, node)| <= Capacity(c) && Enabled(c, s, Agent(id, a))
    ensures var s' := Apply(c, s, Agent(id, a)); Occupied(s', node) == |Holders(s', node)| <= Capacity(c)
  {
    if node == id.node { OwnNodeMovesTogether(c, s, id, a); } else { OtherNodesUntouched(c, s, id, a, node); }
  }

  lemma OtherStepKeepsBalance(c: Config, s: State, l: Label, node: string)
    requires Balanced(c, s) && Enabled(c, s, l) && !l.Agent?
    ensures var s' := Apply(c, s, l); Occupied(s', node) == |Holders(s', node)| <= Capacity(c)
  {
    var s' := Apply(c, s, l);
    assert Occupied(s, node) == |Holders(s, node)| <= Capacity(c);
    if l.Crash? && l.node == node {
      assert Holders(s', node) == {};
    } else {
      assert Holders(s', node) == Holders(s, node);
    }
  }

  lemma StepKeepsBalance(c: Config, s: State, l: Label)
    requires Balanced(c, s) && Enabled(c, s, l)
    ensures Balanced(c, Apply(c, s, l))
  {
    forall node ensures Occupied(Apply(c, s, l), node) == |Holders(Apply(c, s, l), node)| <= Capacity(c) {
      if l.Agent? { AgentStepKeepsBalance(c, s, l.id, l.action, node); } else { OtherStepKeepsBalance(c, s, l, node); }
    }
  }

  lemma {:induction false} RunsKeepBalance(c: Config, ok: (State, Label) -> bool, s: State, ls: seq<Label>, t: State)
    requires Balanced(c, s) && Reaches(c, ok, s, ls, t)
    ensures Balanced(c, t)
    decreases |ls|
  {
    if ls != [] {
      StepKeepsBalance(c, s, ls[0]);
      RunsKeepBalance(c, ok, Apply(c, s, ls[0]), ls[1..], t);
    }
  }

  /** The configured number, or two; a waiting reconcile goes on exactly when fewer are taken. */
  lemma AcquiresBelowCapacity(c: Config, s: State, id: TaskId)
    requires id.node in c.nodes && id.key in s.envs && id in s.tasks && s.tasks[id].AwaitingSlot?
    ensures c.realizeSlots > 0 ==> (Enabled(c, s, Agent(id, Acquire)) <==> Occupied(s, id.node) < c.realizeSlots)
    ensures c.realizeSlots <= 0 ==> (Enabled(c, s, Agent(id, Acquire)) <==> Occupied(s, id.node) < 2)
  {
  }

  /** In every state reachable from a fresh cluster, at most Capacity builds run on a node, the channel
      holds exactly the reconciles past their acquire, and it is empty once they have all returned. */
  lemma SlotsAreBounded(c: Config, ok: (State, Label) -> bool, s: State, ls: seq<Label>, t: State, node: string)
    requires Fresh(c, s) && Reaches(c, ok, s, ls, t)
    ensures Occupied(t, node) == |Holders(t, node)|
    ensures |Realising(t, node)| <= |Holders(t, node)| <= Capacity(c)
    ensures |Holders(t, node)| <= if c.realizeSlots <= 0 then 2 else c.realizeSlots
    ensures (forall id :: id in t.tasks && id.node == node ==> !HoldsSlot(t.tasks[id])) ==> Occupied(t, node) == 0
  {
    forall n ensures Holders(s, n) == {} {
    }
    RunsKeepBalance(c, ok, s, ls, t);
    SubsetIsSmaller(Realising(t, node), Holders(t, node));
    if forall id :: id in t.tasks && id.node == node ==> !HoldsSlot(t.tasks[id]) {
      assert Holders(t, node) == {};
    }
  }
}

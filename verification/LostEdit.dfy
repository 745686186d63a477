/** A run in which the refresh of markRealizing loses a spec edit. */
module LostEdit {
  import opened FloxApi
  import opened EnvMachine
  import opened SingleAgent

  const OLD_SPEC := EnvSpec("", [], map[])
  const NEW_SPEC := EnvSpec("folder", [], map[])
  const RESULT := RealizeResult("/nix/store/x", "", "", "")

  // The versions the env goes through: created, Pending, edited, Realizing, Realized.
  const V0 := FloxEnv(1, OLD_SPEC, "", EnvStatus(None, "", "", []))
  const V1 := V0.(status := V0.status.(ready := Some(Condition(False, PENDING, "queued for realisation", 1))))
  const V2 := V1.(generation := 2, spec := NEW_SPEC)
  const V3 := V2.(status := RealizingStatus(NODE, V1))
  const V4 := V3.(status := CommittedStatus(NODE, V1, V3, RESULT))

  const LOG := [Started(NODE, ENV, 1, ""), Completed(NODE, ENV, 1), Committed(NODE, ENV, 1, 2, false)]

  const STEPS := 13

  /** The states of the run: first touch, the reconcile up to its wait for a slot, the edit during that
      wait, the refresh that picks it up, the build of the manifest read before it, the commit that
      reports the generation after it, and the reconcile the edit had queued. */
  ghost function StateAt(i: nat): State
    requires i <= STEPS
  {
    match i
    case 0 => At([V0], map[], {AGENT}, map[], [])
    case 1 => At([V0], Running(Fetched(V0)), {}, FREE, [])
    case 2 => At([V0, V1], map[], {AGENT}, FREE, [])
    case 3 => At([V0, V1], Running(Fetched(V1)), {}, FREE, [])
    case 4 => At([V0, V1], Running(CheckingDeps(V1, 0, [])), {}, FREE, [])
    case 5 => At([V0, V1], Running(AwaitingSlot(V1)), {}, FREE, [])
    case 6 => At([V0, V1, V2], Running(AwaitingSlot(V1)), {AGENT}, FREE, [])
    case 7 => At([V0, V1, V2], Running(HoldingSlot(V1)), {AGENT}, TAKEN, [])
    case 8 => At([V0, V1, V2, V3], Running(Announced(V1, V3)), {AGENT}, TAKEN, [])
    case 9 => At([V0, V1, V2, V3], Running(Building(V1, V3)), {AGENT}, TAKEN, LOG[..1])
    case 10 => At([V0, V1, V2, V3], Running(Built(V1, V3, RESULT)), {AGENT}, TAKEN, LOG[..2])
    case 11 => At([V0, V1, V2, V3, V4], map[], {AGENT}, FREE, LOG)
    case 12 => At([V0, V1, V2, V3, V4], Running(Fetched(V4)), {}, FREE, LOG)
    case 13 => At([V0, V1, V2, V3, V4], map[], {}, FREE, LOG)
  }

  ghost function LabelAt(i: nat): Label
    requires i < STEPS
  {
    match i
    case 0 => Agent(AGENT, Get(0))
    case 1 => Agent(AGENT, PublishPending(true))
    case 2 => Agent(AGENT, Get(1))
    case 3 => Agent(AGENT, ManifestReady)
    case 4 => Agent(AGENT, DepsMet)
    case 5 => EditSpec(ENV, NEW_SPEC)
    case 6 => Agent(AGENT, Acquire)
    case 7 => Agent(AGENT, Announce(true))
    case 8 => Agent(AGENT, StartRealize)
    case 9 => Agent(AGENT, FinishRealize(RESULT))
    case 10 => Agent(AGENT, Commit(true))
    case 11 => Agent(AGENT, Get(4))
    case 12 => Agent(AGENT, Skip)
  }

  ghost predicate Link(c: Config, i: nat)
    requires i < STEPS
  {
    Enabled(c, StateAt(i), LabelAt(i)) && Apply(c, StateAt(i), LabelAt(i)) == StateAt(i + 1)
  }

  lemma Touch(c: Config)
    requires OneAgent(c)
    ensures Link(c, 0)
  {
  }

  lemma Publish(c: Config)
    requires OneAgent(c)
    ensures Link(c, 1)
  {
    assert [V0] + [V1] == [V0, V1];
  }

  lemma Fetch(c: Config)
    requires OneAgent(c)
    ensures Link(c, 2)
  {
  }

  lemma Resolve(c: Config)
    requires OneAgent(c)
    ensures Link(c, 3)
  {
  }

  lemma Proceed(c: Config)
    requires OneAgent(c)
    ensures Link(c, 4)
  {
  }

  lemma Edit(c: Config)
    requires OneAgent(c)
    ensures Link(c, 5)
  {
    assert NEW_SPEC.folder != OLD_SPEC.folder;
    assert (set n | n in c.nodes :: TaskId(n, ENV)) == {AGENT};
    assert [V0, V1] + [V2] == [V0, V1, V2];
  }

  lemma TakeSlot(c: Config)
    requires OneAgent(c)
    ensures Link(c, 6)
  {
  }

  lemma Refresh(c: Config)
    requires OneAgent(c)
    ensures Link(c, 7)
  {
    assert |PENDING| != |REALIZING|;
    assert [V0, V1, V2] + [V3] == [V0, V1, V2, V3];
  }

  lemma Build(c: Config)
    requires OneAgent(c)
    ensures Link(c, 8)
  {
    assert [] + [LOG[0]] == LOG[..1];
  }

  lemma Finish(c: Config)
    requires OneAgent(c)
    ensures Link(c, 9)
  {
    assert LOG[..1] + [LOG[1]] == LOG[..2];
  }

  lemma CommitTheBuild(c: Config)
    requires OneAgent(c)
    ensures Link(c, 10)
  {
    assert Patch([V0, V1, V2, V3], V3.status, CommittedStatus(NODE, V1, V3, RESULT)) == V4;
    assert [V0, V1, V2, V3] + [V4] == [V0, V1, V2, V3, V4];
    assert LOG[..2] + [LOG[2]] == LOG;
  }

  lemma FetchAgain(c: Config)
    requires OneAgent(c)
    ensures Link(c, 11)
  {
  }

  lemma FindNothing(c: Config)
    requires OneAgent(c)
    ensures Link(c, 12)
  {
    assert V4.status.realized == [NodeEntry(NODE, V3, RESULT)];
    assert NodeEntry(NODE, V3, RESULT) in V4.status.realized;
  }

  lemma AllLinked(c: Config, i: nat)
    requires OneAgent(c) && i < STEPS
    ensures Link(c, i)
  {
    match i
    case 0 => Touch(c);
    case 1 => Publish(c);
    case 2 => Fetch(c);
    case 3 => Resolve(c);
    case 4 => Proceed(c);
    case 5 => Edit(c);
    case 6 => TakeSlot(c);
    case 7 => Refresh(c);
    case 8 => Build(c);
    case 9 => Finish(c);
    case 10 => CommitTheBuild(c);
    case 11 => FetchAgain(c);
    case 12 => FindNothing(c);
  }

  lemma StepsAreARun(c: Config, n: nat) returns (ls: seq<Label>)
    requires OneAgent(c) && n <= STEPS
    ensures Reaches(c, AnyStep(), StateAt(0), ls, StateAt(n))
  {
    ls := seq(n, i requires 0 <= i < n => LabelAt(i));
    var states := seq(n + 1, i requires 0 <= i <= n => StateAt(i));
    forall i | 0 <= i < |ls|
      ensures Enabled(c, states[i], ls[i]) && Apply(c, states[i], ls[i]) == states[i + 1]
    {
      AllLinked(c, i);
    }
    ReachesAlong(c, AnyStep(), states, ls);
  }

  lemma StartIsFresh(c: Config)
    requires OneAgent(c)
    ensures Fresh(c, StateAt(0))
  {
  }

  /** In the end nothing is queued or running, the env reads Realized at its current generation, and
      that generation was never built. */
  lemma SpecEditIsLost(c: Config) returns (ls: seq<Label>, s: State, t: State)
    requires OneAgent(c)
    ensures Fresh(c, s) && Reaches(c, AnyStep(), s, ls, t)
    ensures t.due == {} && t.tasks == map[] && ENV in t.envs
    ensures var env := Current(t.envs[ENV]);
      && env.generation == 2 && IsReady(env) && AlreadyRealized(NODE, env)
      && env.status.realized == [NodeEntry(NODE, env, RESULT)]
    ensures forall node, lock :: Started(node, ENV, 2, lock) !in t.log
    ensures forall node :: Completed(node, ENV, 2) !in t.log
  {
    s, t := StateAt(0), StateAt(STEPS);
    ls := StepsAreARun(c, STEPS);
    assert V4.status.realized == [NodeEntry(NODE, V3, RESULT)];
    assert NodeEntry(NODE, V3, RESULT) in V4.status.realized;
  }
}

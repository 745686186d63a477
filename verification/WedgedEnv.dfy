/** A run that leaves an env already realised but not Ready, for good: the state from which Progress shows
    no reconcile ever recovers. */
module WedgedEnv {
  import opened FloxApi
  import opened EnvStatusRecord
  import opened EnvMachine
  import opened EnvReconcile
  import opened ReconcileRun
  import opened SingleAgent
  import opened Undisturbed
  import Progress
  import Relock

  const RESULT := RealizeResult("/nix/store/x", "", "", "")
  const CREATED := FloxEnv(1, EnvSpec("", [], map[]), "", EnvStatus(None, "", "", []))

  /** A relock edit queues the agent, and is a step of a run in which the agent reads stored objects. */
  lemma Edit(c: Config, s: State, env: FloxEnv, due: bool, value: string) returns (t: State)
    requires OneAgent(c) && On(s, AGENT, env, due) && value != env.relock
    ensures Path(c, Relock.FreshReads(), s, t) && On(t, AGENT, env.(relock := value), true)
    ensures t.tasks == s.tasks && t.due == s.due + {AGENT}
  {
    var l := EditRelock(ENV, value);
    StepIsAPath(c, Relock.FreshReads(), s, l);
    t := Apply(c, s, l);
    assert (set n | n in c.nodes :: TaskId(n, ENV)) == {AGENT};
  }

  /** An agent's run is one in which it reads stored objects. */
  lemma Onward(c: Config, s: State, m: State, t: State)
    requires Path(c, Relock.FreshReads(), s, m) && Leads(c, AGENT, m, t)
    ensures Path(c, Relock.FreshReads(), s, t)
  {
    PathUnder(c, Own(AGENT), Relock.FreshReads(), m, t);
    PathsCompose(c, Relock.FreshReads(), s, m, t);
  }

  const TOUCHED := CREATED.(status := WithReady(CREATED, False, PENDING, "queued for realisation"))
  const REALIZED_ENV := CommittedEnv(NODE, TOUCHED, RESULT)
  const REQUESTED := REALIZED_ENV.(relock := "r")
  const BROKEN := REQUESTED.(status := NotReady(AnnouncedEnv(NODE, REQUESTED), REALIZE_FAILED, "realize failed"))
  const WEDGED := BROKEN.(relock := "")

  lemma TheVersions()
    ensures !AlreadyRealized(NODE, TOUCHED) && !AlreadyRealized(NODE, REQUESTED) && AlreadyRealized(NODE, WEDGED)
    ensures Progress.Wedged(NODE, WEDGED)
  {
    assert REALIZED_ENV.status.realized == [NodeEntry(NODE, TOUCHED, RESULT)];
    assert NodeEntry(NODE, TOUCHED, RESULT) in WEDGED.status.realized;
  }

  /** Only this agent has work, and none in flight. */
  ghost predicate Quiet(s: State, due: set<TaskId>) { s.tasks == map[] && s.due == due }

  lemma StaysQuiet(c: Config, s: State, t: State)
    requires Leads(c, AGENT, s, t) && s.tasks == map[] && s.due <= {AGENT} && AGENT !in t.tasks
    ensures Quiet(t, if AGENT in t.due then {AGENT} else {})
  {
    assert t.tasks == t.tasks - {AGENT} && s.tasks == s.tasks - {AGENT} && s.due - {AGENT} == {};
    assert t.due == (t.due - {AGENT}) + if AGENT in t.due then {AGENT} else {};
  }

  lemma RealizedOnce(c: Config) returns (s: State, t: State)
    requires OneAgent(c)
    ensures Fresh(c, s) && Path(c, Relock.FreshReads(), s, t) && On(t, AGENT, REALIZED_ENV, false) && Quiet(t, {})
  {
    s := SingleAgent.At([CREATED], map[], {AGENT}, map[], []);
    NoStepIsAPath(c, Relock.FreshReads(), s);
    TheVersions();
    var m := Touch(c, s, AGENT, CREATED);
    Onward(c, s, s, m);
    StaysQuiet(c, s, m);
    t := Build(c, m, AGENT, TOUCHED, Some(RESULT));
    Onward(c, s, m, t);
    StaysQuiet(c, m, t);
  }

  lemma RequestFails(c: Config, r: State, s: State) returns (t: State)
    requires OneAgent(c) && Path(c, Relock.FreshReads(), r, s) && On(s, AGENT, REALIZED_ENV, false) && Quiet(s, {})
    ensures Path(c, Relock.FreshReads(), r, t) && On(t, AGENT, BROKEN, true) && Quiet(t, {AGENT})
  {
    TheVersions();
    var m := Edit(c, s, REALIZED_ENV, false, "r");
    PathsCompose(c, Relock.FreshReads(), r, s, m);
    t := Build(c, m, AGENT, REQUESTED, None);
    Onward(c, r, m, t);
    StaysQuiet(c, m, t);
  }

  lemma RequestIsWithdrawn(c: Config, r: State, s: State) returns (t: State)
    requires OneAgent(c) && Path(c, Relock.FreshReads(), r, s) && On(s, AGENT, BROKEN, true) && Quiet(s, {AGENT})
    ensures Path(c, Relock.FreshReads(), r, t) && On(t, AGENT, WEDGED, false) && Quiet(t, {})
  {
    TheVersions();
    var m := Edit(c, s, BROKEN, true, "");
    PathsCompose(c, Relock.FreshReads(), r, s, m);
    t := Nothing(c, m, AGENT, WEDGED);
    Onward(c, r, m, t);
    StaysQuiet(c, m, t);
  }

  /** From a fresh cluster with one agent that reads its own writes: the env is realised; a relock is requested,
      its build fails, and the request is withdrawn. In the end nothing is queued or running and the env
      is wedged, so it stays RealizeFailed and every env that depends on it stays held. */
  lemma WithdrawnRelockWedges(c: Config) returns (s: State, t: State)
    requires OneAgent(c)
    ensures Fresh(c, s) && Path(c, Relock.FreshReads(), s, t)
    ensures t.due == {} && t.tasks == map[] && ENV in t.envs && Progress.Wedged(NODE, Current(t.envs[ENV]))
  {
    TheVersions();
    var m;
    s, m := RealizedOnce(c);
    m := RequestFails(c, s, m);
    t := RequestIsWithdrawn(c, s, m);
  }
}

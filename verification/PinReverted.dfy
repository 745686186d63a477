/** A run in which a reconcile puts back the pin and the token of a stale read: the exception LockRoll
    allows for does occur, so reading its own writes is needed for Relock's results. */
module PinReverted {
  import opened FloxApi
  import opened EnvStatusRecord
  import opened EnvMachine
  import opened LockRoll
  import opened Undisturbed
  import opened TwoAgents
  import AskedLock

  const LOCK1 := "lock-1"
  const LOCK2 := "lock-2"
  const FIRST := RealizeResult("/nix/store/x", "", "", LOCK1)
  const SECOND := RealizeResult("/nix/store/y", "", "", LOCK2)

  // The versions after the first touch: realised by the quick agent at lock 1; asked to relock; relocked
  // at lock 2; announced and committed by the slow agent, which had read the first of these.
  const PINNED := CommittedEnv(QUICK.node, TOUCHED, FIRST)
  const ASKED := PINNED.(relock := "r")
  const RELOCKED := CommittedEnv(QUICK.node, ASKED, SECOND)
  const REFRESHED := RELOCKED.(status := RELOCKED.status.(ready := RealizingStatus(SLOW.node, PINNED).ready))
  const REVERTED := REFRESHED.(status := CommittedStatus(SLOW.node, PINNED, REFRESHED, FIRST))

  lemma TheVersions()
    ensures !AlreadyRealized(QUICK.node, TOUCHED) && !AlreadyRealized(QUICK.node, ASKED) && !AlreadyRealized(SLOW.node, PINNED)
    ensures MergePatch(RELOCKED.status, PINNED.status, RealizingStatus(SLOW.node, PINNED)) == REFRESHED.status
    ensures MergePatch(REFRESHED.status, REFRESHED.status, CommittedStatus(SLOW.node, PINNED, REFRESHED, FIRST)) == REVERTED.status
    ensures REFRESHED.status.lock == LOCK2 && REVERTED.status.lock == LOCK1 != LOCK2
    ensures !Forced(REFRESHED) && Forced(REVERTED) && !NeedsRoll(PINNED, FIRST)
  {
    assert PINNED.status.realized == [NodeEntry(QUICK.node, TOUCHED, FIRST)];
  }

  /** The quick agent builds, and honours a relock; the version between stays readable. */
  lemma BuildTwice(c: Config) returns (s: State, t: State, stale: nat)
    requires OnlyTwo(c)
    ensures Fresh(c, s) && Path(c, AnyStep(), s, t) && Is(t, RELOCKED, None, {SLOW})
    ensures stale < |t.envs[ENV]| && t.envs[ENV][stale] == PINNED
  {
    TheVersions();
    s := Start(c);
    var m := QuickTouches(c, s, s, None, {SLOW, QUICK});
    m := QuickBuilds(c, s, m, TOUCHED, None, {SLOW, QUICK}, FIRST);
    stale := |m.envs[ENV]| - 1;
    var asked := AskForRelock(c, s, m, PINNED, "r");
    t := QuickBuilds(c, s, asked, ASKED, None, {SLOW, QUICK}, SECOND);
  }

  /** From a fresh cluster: the last step of the run commits lock 1 over lock 2 without any roll, and takes
      back the honoured token, so a relock that had been realised is pending again; and nothing is queued
      to honour it. */
  lemma StaleReadRevertsThePin(c: Config) returns (s: State, m: State, t: State)
    requires OnlyTwo(c)
    ensures Fresh(c, s) && Path(c, AnyStep(), s, m)
    ensures Enabled(c, m, Agent(SLOW, Commit(true))) && Apply(c, m, Agent(SLOW, Commit(true))) == t
    ensures ENV in m.envs && ENV in t.envs && !RollCompleted(c, m, SLOW)
    ensures SLOW in m.tasks && m.tasks[SLOW] == Built(PINNED, REFRESHED, FIRST) && Current(m.envs[ENV]) == REFRESHED
    ensures Current(m.envs[ENV]).status.lock == LOCK2 && Current(t.envs[ENV]).status.lock == LOCK1 && LOCK1 != LOCK2
    ensures !Forced(Current(m.envs[ENV])) && Forced(Current(t.envs[ENV])) && t.due == {} && t.tasks == map[]
  {
    TheVersions();
    var stale;
    s, m, stale := BuildTwice(c);
    m := SlowReads(c, s, m, RELOCKED, stale, {SLOW});
    m := SlowAnnounces(c, s, m, RELOCKED, PINNED, {});
    m := SlowBuilds(c, s, m, REFRESHED, PINNED, REFRESHED, {}, FIRST);
    t := SlowStep(c, m, REFRESHED, Built(PINNED, REFRESHED, FIRST), {}, Commit(true));
  }

  /** That commit moves the token, and the Realize it follows was asked for the old lock: without reading one's
      own writes, a token may move although nothing was locked afresh. */
  lemma TokenMovesOnAnOldLock(c: Config) returns (s: State, ls: seq<Label>, m: State, i: nat, from: State)
    requires OnlyTwo(c)
    ensures Fresh(c, s) && Reaches(c, AnyStep(), s, ls, m) && Enabled(c, m, Agent(SLOW, Commit(true)))
    ensures Act(c, m, SLOW, Commit(true)).stored.value.status.relockToken != Current(m.envs[ENV]).status.relockToken
    ensures i < |ls| && ls[i] == Agent(SLOW, StartRealize) && AskedLock.StartedAt(c, from, ls[i + 1..], m, SLOW)
    ensures Apply(c, from, ls[i]).log == from.log + [Started(SLOW.node, ENV, 1, LOCK1)]
  {
    var t, lock;
    s, m, t := StaleReadRevertsThePin(c);
    ls :| Reaches(c, AnyStep(), s, ls, m);
    TheVersions();
    i, from, lock := AskedLock.CommitFollowsItsStart(c, AnyStep(), s, ls, m, SLOW);
  }
}

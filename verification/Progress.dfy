/** Rounds of reconciles realise everything: with acyclic dependencies over existing envs, resolved catalogs
    and a provisioner that succeeds, |envs| + 1 rounds that each reconcile every env, in whatever order and
    possibly more than once, leave every env Realized at its current generation; and that fails exactly
    when some env starts out already realised but not Ready. */
module Progress {
  import opened FiniteSets
  import opened FloxApi
  import opened EnvStatusRecord
  import opened FlakeInstalls
  import opened EnvMachine
  import opened EnvReconcile

  /** One reconcile of a round: its key and what its calls return. */
  datatype Visit = Visit(key: Key, refusal: Refusal, world: World)

  type Envs = map<Key, FloxEnv>

  ghost function AfterVisit(node: string, envs: Envs, v: Visit): Envs {
    AfterReconcile(node, envs, map[], v.key, v.refusal, v.world).envs
  }

  ghost function AfterVisits(node: string, envs: Envs, visits: seq<Visit>): Envs
    decreases |visits|
  {
    if visits == [] then envs else AfterVisits(node, AfterVisit(node, envs, visits[0]), visits[1..])
  }

  ghost function AfterRounds(node: string, envs: Envs, rounds: seq<seq<Visit>>): Envs
    decreases |rounds|
  {
    if rounds == [] then envs else AfterRounds(node, AfterVisits(node, envs, rounds[0]), rounds[1..])
  }

  /** Every manifest is read, resolves and is written, slots are free, Realize and the roll succeed, and
      status patches are accepted. */
  ghost predicate Smooth(envs: Envs, v: Visit) {
    && v.world.decodes && (forall m :: v.world.encodes(m)) && v.world.slot && v.world.first && v.world.last
    && (v.key in envs ==> AllResolve(v.key.ns, v.world.catalogs, envs[v.key].spec.manifest))
    && (forall request :: v.world.realize(request).Some?)
    && (forall target, lock :: RollSucceeds(v.world, target, lock))
  }

  /** The round reconciles every env. */
  ghost predicate Covers(envs: Envs, round: seq<Visit>) {
    forall k :: k in envs ==> exists i :: 0 <= i < |round| && round[i].key == k
  }

  ghost predicate SmoothRound(envs: Envs, round: seq<Visit>) {
    Covers(envs, round) && forall i :: 0 <= i < |round| ==> Smooth(envs, round[i])
  }

  /** Declared names exist, and the rank of each is below the rank of the env that declares it. */
  ghost predicate Acyclic(envs: Envs, rank: Key -> nat) {
    forall k, name :: k in envs && name in envs[k].spec.dependsOn ==>
      DepKey(k, name) in envs && rank(DepKey(k, name)) < rank(k)
  }

  predicate Settled(node: string, env: FloxEnv) {
    AlreadyRealized(node, env) && IsReady(env)
  }

  /** Already realised but not Ready: alreadyRealized then returns before anything could set Ready. */
  predicate Wedged(node: string, env: FloxEnv) {
    AlreadyRealized(node, env) && !IsReady(env)
  }

  ghost predicate NoneWedged(node: string, envs: Envs) {
    forall k :: k in envs ==> !Wedged(node, envs[k])
  }

  ghost predicate AllTouched(envs: Envs) {
    forall k :: k in envs ==> envs[k].status.ready.Some?
  }

  ghost function Unsettled(node: string, envs: Envs): set<Key> {
    set k | k in envs && !Settled(node, envs[k])
  }

  /** What every visit keeps of every env, and what it brings about. */
  ghost predicate Keeps(node: string, before: FloxEnv, after: FloxEnv) {
    && after.spec == before.spec && after.generation == before.generation && after.relock == before.relock
    && (before.status.ready.Some? ==> after.status.ready.Some?)
    && (Settled(node, before) ==> Settled(node, after))
    && (Wedged(node, before) ==> Wedged(node, after))
    && (Wedged(node, after) ==> Wedged(node, before))
  }

  ghost predicate AllKeep(node: string, before: Envs, after: Envs) {
    after.Keys == before.Keys && forall k :: k in before ==> Keeps(node, before[k], after[k])
  }

  /** The visited env afterwards. */
  lemma VisitedEnv(node: string, envs: Envs, v: Visit)
    requires Smooth(envs, v) && v.key in envs
    ensures var before, after := envs[v.key], AfterVisit(node, envs, v)[v.key];
      && Keeps(node, before, after) && after.status.ready.Some?
      && (before.status.ready.Some? && !Wedged(node, before)
          && (forall name :: name in before.spec.dependsOn ==> DepKey(v.key, name) in envs && IsReady(envs[DepKey(v.key, name)]))
          ==> Settled(node, after))
  {
    var env := envs[v.key];
    NothingUnmet(envs, v.key, env.spec.dependsOn);
    if env.status.ready.Some? && !AlreadyRealized(node, env) && Unmet(envs, v.key, env.spec.dependsOn) == [] {
      var announced := PatchStatus(envs, v.key, env.status, RealizingStatus(node, env), true);
      var view := announced[v.key];
      var result := v.world.realize(RequestFor(v.key, env, ResolvedManifest(v.key.ns, v.world.catalogs, env.spec.manifest))).value;
      assert RollSucceeds(v.world, Coordinate(v.key, view), result.lock);
      UpsertOnlyAdds(view.status.realized, NodeEntry(node, view, result));
    }
  }

  lemma VisitKeeps(node: string, envs: Envs, v: Visit)
    requires Smooth(envs, v)
    ensures AllKeep(node, envs, AfterVisit(node, envs, v))
  {
    if v.key in envs { VisitedEnv(node, envs, v); }
  }

  lemma KeepsSmooth(node: string, before: Envs, after: Envs, v: Visit)
    requires AllKeep(node, before, after) && Smooth(before, v)
    ensures Smooth(after, v)
  {
  }

  lemma {:induction false} VisitsKeep(node: string, envs: Envs, visits: seq<Visit>)
    requires forall i :: 0 <= i < |visits| ==> Smooth(envs, visits[i])
    ensures AllKeep(node, envs, AfterVisits(node, envs, visits))
    decreases |visits|
  {
    if visits != [] {
      VisitKeeps(node, envs, visits[0]);
      var next := AfterVisit(node, envs, visits[0]);
      forall i | 0 <= i < |visits[1..]| ensures Smooth(next, visits[1..][i]) {
        KeepsSmooth(node, envs, next, visits[i + 1]);
      }
      VisitsKeep(node, next, visits[1..]);
    }
  }

  lemma {:induction false} VisitsCompose(node: string, envs: Envs, a: seq<Visit>, b: seq<Visit>)
    ensures AfterVisits(node, envs, a + b) == AfterVisits(node, AfterVisits(node, envs, a), b)
    decreases |a|
  {
    if a == [] {
      assert a + b == b;
    } else {
      assert (a + b)[1..] == a[1..] + b;
      VisitsCompose(node, AfterVisit(node, envs, a[0]), a[1..], b);
    }
  }

  /** The state in which the i-th visit of a round happens, and the one after the rest of it. */
  lemma RoundAround(node: string, envs: Envs, round: seq<Visit>, i: nat)
    requires SmoothRound(envs, round) && i < |round|
    ensures var at := AfterVisits(node, envs, round[..i]); var next := AfterVisit(node, at, round[i]);
      && AllKeep(node, envs, at) && Smooth(at, round[i]) && AllKeep(node, at, next)
      && AllKeep(node, next, AfterVisits(node, envs, round))
  {
    var at := AfterVisits(node, envs, round[..i]);
    VisitsKeep(node, envs, round[..i]);
    KeepsSmooth(node, envs, at, round[i]);
    VisitKeeps(node, at, round[i]);
    var next := AfterVisit(node, at, round[i]);
    var rest := round[i + 1..];
    forall j | 0 <= j < |rest| ensures Smooth(next, rest[j]) {
      KeepsSmooth(node, envs, at, round[i + 1 + j]);
      KeepsSmooth(node, at, next, round[i + 1 + j]);
    }
    VisitsKeep(node, next, rest);
    assert round == round[..i] + ([round[i]] + rest);
    VisitsCompose(node, envs, round[..i], [round[i]] + rest);
    assert ([round[i]] + rest)[1..] == rest;
  }

  /** After one round every env has a condition. */
  lemma RoundTouches(node: string, envs: Envs, round: seq<Visit>)
    requires SmoothRound(envs, round)
    ensures AllTouched(AfterVisits(node, envs, round)) && AllKeep(node, envs, AfterVisits(node, envs, round))
  {
    VisitsKeep(node, envs, round);
    var end := AfterVisits(node, envs, round);
    forall k | k in end ensures end[k].status.ready.Some? {
      var i :| 0 <= i < |round| && round[i].key == k;
      RoundAround(node, envs, round, i);
      VisitedEnv(node, AfterVisits(node, envs, round[..i]), round[i]);
    }
  }

  lemma {:induction false} LowestRank(keys: set<Key>, rank: Key -> nat) returns (k: Key)
    requires keys != {}
    ensures k in keys && forall other :: other in keys ==> rank(k) <= rank(other)
  {
    k :| k in keys;
    if keys != {k} {
      var other := LowestRank(keys - {k}, rank);
      if rank(other) < rank(k) { k := other; }
    }
  }

  /** Once every env has a condition, each round settles at least one more: the lowest unsettled one. */
  lemma RoundSettlesOne(node: string, envs: Envs, round: seq<Visit>, rank: Key -> nat)
    requires SmoothRound(envs, round) && Acyclic(envs, rank) && AllTouched(envs) && NoneWedged(node, envs)
    ensures var end := AfterVisits(node, envs, round);
      && AllKeep(node, envs, end)
      && Unsettled(node, end) <= Unsettled(node, envs)
      && (Unsettled(node, envs) != {} ==> Unsettled(node, end) < Unsettled(node, envs))
  {
    VisitsKeep(node, envs, round);
    if Unsettled(node, envs) != {} {
      var k := LowestRank(Unsettled(node, envs), rank);
      var i :| 0 <= i < |round| && round[i].key == k;
      RoundAround(node, envs, round, i);
      var at := AfterVisits(node, envs, round[..i]);
      forall name | name in at[k].spec.dependsOn ensures DepKey(k, name) in at && IsReady(at[DepKey(k, name)]) {
        assert name in envs[k].spec.dependsOn;
        assert DepKey(k, name) !in Unsettled(node, envs);
      }
      VisitedEnv(node, at, round[i]);
    }
  }

  ghost predicate SmoothRounds(envs: Envs, rounds: seq<seq<Visit>>) {
    forall i :: 0 <= i < |rounds| ==> SmoothRound(envs, rounds[i])
  }

  lemma KeepsSmoothRounds(node: string, before: Envs, after: Envs, rounds: seq<seq<Visit>>)
    requires AllKeep(node, before, after) && SmoothRounds(before, rounds)
    ensures SmoothRounds(after, rounds)
  {
    forall i, j | 0 <= i < |rounds| && 0 <= j < |rounds[i]| ensures Smooth(after, rounds[i][j]) {
      KeepsSmooth(node, before, after, rounds[i][j]);
    }
    forall i | 0 <= i < |rounds| ensures SmoothRound(after, rounds[i]) {
      assert SmoothRound(before, rounds[i]);
    }
  }

  lemma {:induction false} RoundsSettle(node: string, envs: Envs, rounds: seq<seq<Visit>>, rank: Key -> nat)
    requires SmoothRounds(envs, rounds) && Acyclic(envs, rank) && AllTouched(envs) && NoneWedged(node, envs)
    requires |Unsettled(node, envs)| <= |rounds|
    ensures var end := AfterRounds(node, envs, rounds); AllKeep(node, envs, end) && Unsettled(node, end) == {}
    decreases |rounds|
  {
    if rounds != [] {
      assert SmoothRound(envs, rounds[0]);
      RoundSettlesOne(node, envs, rounds[0], rank);
      var next := AfterVisits(node, envs, rounds[0]);
      SubsetIsSmaller(Unsettled(node, next), Unsettled(node, envs));
      KeepsSmoothRounds(node, envs, next, rounds[1..]);
      RoundsSettle(node, next, rounds[1..], rank);
    }
  }

  /** The main result. An env can end up unrealised only by starting out wedged, and then it does. */
  lemma RoundsRealizeEverything(node: string, envs: Envs, rounds: seq<seq<Visit>>, rank: Key -> nat)
    requires SmoothRounds(envs, rounds) && |rounds| == |envs| + 1 && Acyclic(envs, rank)
    ensures var end := AfterRounds(node, envs, rounds);
      && end.Keys == envs.Keys
      && ((forall k :: k in end ==> Settled(node, end[k])) <==> NoneWedged(node, envs))
  {
    assert SmoothRound(envs, rounds[0]);
    RoundTouches(node, envs, rounds[0]);
    var first := AfterVisits(node, envs, rounds[0]);
    KeepsSmoothRounds(node, envs, first, rounds[1..]);
    RoundsKeep(node, first, rounds[1..]);
    var end := AfterRounds(node, envs, rounds);
    if NoneWedged(node, envs) {
      UnsettledAreEnvs(node, first);
      RoundsSettle(node, first, rounds[1..], rank);
      forall k | k in end ensures Settled(node, end[k]) {
        assert k !in Unsettled(node, end);
      }
    } else {
      var k :| k in envs && Wedged(node, envs[k]);
      assert Keeps(node, envs[k], first[k]) && Keeps(node, first[k], end[k]);
    }
  }

  lemma UnsettledAreEnvs(node: string, envs: Envs)
    ensures |Unsettled(node, envs)| <= |envs|
  {
    assert Unsettled(node, envs) <= envs.Keys;
    SubsetIsSmaller(Unsettled(node, envs), envs.Keys);
    assert |envs.Keys| == |envs|;
  }

  lemma {:induction false} RoundsKeep(node: string, envs: Envs, rounds: seq<seq<Visit>>)
    requires SmoothRounds(envs, rounds)
    ensures AllKeep(node, envs, AfterRounds(node, envs, rounds))
    decreases |rounds|
  {
    if rounds != [] {
      assert SmoothRound(envs, rounds[0]);
      VisitsKeep(node, envs, rounds[0]);
      var next := AfterVisits(node, envs, rounds[0]);
      KeepsSmoothRounds(node, envs, next, rounds[1..]);
      RoundsKeep(node, next, rounds[1..]);
    }
  }
}

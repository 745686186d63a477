/** Whether the rollup stored in a catalog's status is that of its envs, over every sequence of env events
    and catalog passes (internal/controller/floxcatalog_controller.go).

    A pass reads the catalog, rolls the envs up, and then patches: a field is sent only when it differs from
    the copy that was read. Env events may fall between the two. */
module RollupCache {
  import opened FloxApi
  import opened CatalogRollup

  /** `base` is the rollup of the copy the pass read, `edited` the one it computed. */
  datatype Pass = Pass(base: Rollup, edited: Rollup)

  type Versions = v: seq<Rollup> | v != [] witness [BLANK]

  /** The envs of the namespace, every rollup the catalog ever stored, whether the catalog's key is queued,
      and the pass in flight. */
  datatype State = State(envs: Envs, stored: Versions, queued: bool, pass: Option<Pass>)

  function Stored(s: State): Rollup { s.stored[|s.stored| - 1] }

  datatype Event =
    | EnvPut(name: string, env: FloxEnv, mapped: bool)  // `mapped`: a List of catalogsForEnv worked, for the old object or the new
    | EnvGone(name: string, mapped: bool)
    | Wake                                              // the source, the catalog's spec, or a resync
    | SourceFails                                       // a pass that ends in notReady
    | Begin(version: nat, listed: bool, edited: Rollup) // `listed`: the pass's List worked; the rollup it made
    | End(patched: bool, stamped: bool)                 // whether the patch and propagateRelock succeeded

  /** r is the rollup of these envs, in some listing order. */
  ghost predicate Rolls(envs: Envs, r: Rollup) {
    exists order :: IsListing(order, envs) && r == RollupOf(order, envs)
  }

  ghost predicate Enabled(s: State, e: Event) {
    match e
    case EnvPut(_, _, _) => true
    case EnvGone(name, _) => name in s.envs
    case Wake => true
    case SourceFails => s.queued && s.pass.None?
    case Begin(version, listed, edited) =>
      s.queued && s.pass.None? && version < |s.stored| && if listed then Rolls(s.envs, edited) else edited == BLANK
    case End(_, _) => s.pass.Some?
  }

  /** The watch's filter: creations always pass, updates when the readiness moves. */
  predicate PutPasses(envs: Envs, name: string, env: FloxEnv) {
    name in envs ==> Passes(envs[name], env)
  }

  function MergeRollup(stored: Rollup, base: Rollup, edited: Rollup): Rollup {
    Rollup(
      if edited.summary != base.summary then edited.summary else stored.summary,
      if edited.plan != base.plan then edited.plan else stored.plan)
  }

  ghost function Apply(s: State, e: Event): State
    requires Enabled(s, e)
  {
    match e
    case EnvPut(name, env, mapped) =>
      s.(envs := s.envs[name := env], queued := s.queued || (mapped && PutPasses(s.envs, name, env)))
    case EnvGone(name, mapped) => s.(envs := s.envs - {name}, queued := s.queued || mapped)
    case Wake => s.(queued := true)
    case SourceFails => s
    case Begin(version, _, edited) =>
      s.(queued := false, pass := Some(Pass(s.stored[version], edited)))
    case End(patched, stamped) =>
      s.(pass := None,
         queued := s.queued || !patched || !stamped,
         stored := if patched then s.stored + [MergeRollup(Stored(s), s.pass.value.base, s.pass.value.edited)] else s.stored)
  }

  /** The rollup of the current envs; or blank, where that is admitted. */
  ghost predicate Current(envs: Envs, r: Rollup, blankToo: bool) {
    Rolls(envs, r) || (blankToo && r == BLANK)
  }

  // ---------- what a patch leaves ----------

  /** The phases of the envs, as a set: the plan without its order. */
  function PhasesOf(envs: Envs): set<EnvPhase> {
    set n | n in envs :: EnvPhase(n, Phase(envs[n]))
  }

  ghost predicate IsPlan(envs: Envs, plan: seq<EnvPhase>) {
    exists order :: IsListing(order, envs) && plan == Plan(order, envs)
  }

  lemma TwiceInMultiset(plan: seq<EnvPhase>, i: nat, j: nat)
    requires i < j < |plan| && plan[i] == plan[j]
    ensures multiset(plan)[plan[i]] >= 2
  {
    assert plan == plan[..j] + plan[j..];
    assert plan[..j][i] in multiset(plan[..j]) && plan[j..][0] in multiset(plan[j..]);
  }

  lemma {:induction false} DistinctOnceInMultiset(plan: seq<EnvPhase>, x: EnvPhase)
    requires forall i, j :: 0 <= i < j < |plan| ==> plan[i] != plan[j]
    ensures multiset(plan)[x] == if x in plan then 1 else 0
  {
    if plan != [] {
      var front, last := plan[..|plan| - 1], plan[|plan| - 1];
      assert plan == front + [last];
      DistinctOnceInMultiset(front, x);
    }
  }

  /** A sequence is a set in some order iff it has every element of the set once. */
  lemma DistinctAsMultiset(plan: seq<EnvPhase>, phases: set<EnvPhase>)
    ensures multiset(plan) == multiset(phases) <==>
            && (forall x :: x in plan <==> x in phases)
            && (forall i, j :: 0 <= i < j < |plan| ==> plan[i] != plan[j])
  {
    if multiset(plan) == multiset(phases) {
      forall x ensures x in plan <==> x in phases {
        assert x in plan <==> x in multiset(plan);
      }
      forall i, j | 0 <= i < j < |plan| ensures plan[i] != plan[j] {
        if plan[i] == plan[j] { TwiceInMultiset(plan, i, j); }
      }
    } else if forall i, j :: 0 <= i < j < |plan| ==> plan[i] != plan[j] {
      forall x ensures multiset(plan)[x] == if x in plan then 1 else 0 { DistinctOnceInMultiset(plan, x); }
      assert (forall x :: x in plan <==> x in phases) ==> multiset(plan) == multiset(phases);
    }
  }

  /** A plan is right exactly when it has every env's phase once. */
  lemma PlanIsPhases(envs: Envs, plan: seq<EnvPhase>)
    ensures IsPlan(envs, plan) <==> multiset(plan) == multiset(PhasesOf(envs))
  {
    DistinctAsMultiset(plan, PhasesOf(envs));
    if order :| IsListing(order, envs) && plan == Plan(order, envs) {
      forall x ensures x in plan <==> x in PhasesOf(envs) {
        if x in PhasesOf(envs) {
          var i :| 0 <= i < |order| && order[i] == x.name;
          assert plan[i] == x;
        }
      }
      assert forall i, j :: 0 <= i < j < |plan| ==> plan[i].name != plan[j].name;
    }
    if multiset(plan) == multiset(PhasesOf(envs)) {
      PhasesMakeAPlan(envs, plan);
    }
  }

  lemma PhasesMakeAPlan(envs: Envs, plan: seq<EnvPhase>)
    requires multiset(plan) == multiset(PhasesOf(envs))
    ensures IsPlan(envs, plan)
  {
    DistinctAsMultiset(plan, PhasesOf(envs));
    var order := seq(|plan|, i requires 0 <= i < |plan| => plan[i].name);
    forall i | 0 <= i < |plan| ensures plan[i].name in envs && plan[i] == EnvPhase(order[i], Phase(envs[order[i]])) {
      assert plan[i] in plan;
    }
    forall n ensures n in order <==> n in envs {
      if n in envs {
        var x := EnvPhase(n, Phase(envs[n]));
        assert x in PhasesOf(envs);
        var i :| 0 <= i < |plan| && plan[i] == x;
        assert order[i] == n;
      }
    }
    assert IsListing(order, envs);
    assert plan == Plan(order, envs);
  }

  lemma RollsIff(envs: Envs, r: Rollup)
    ensures Rolls(envs, r) <==> r.summary == Summary(ReadyCount(envs), |envs|, RealizingCount(envs)) && IsPlan(envs, r.plan)
  {
    if order :| IsListing(order, envs) && r.plan == Plan(order, envs) {
      assert RollupOf(order, envs).plan == r.plan;
    }
  }

  /** Each field was sent, or the stored one was right without it. */
  predicate Lands(stored: Rollup, pass: Pass) {
    && (pass.edited.summary != pass.base.summary || stored.summary == pass.edited.summary)
    && (pass.edited.plan != pass.base.plan || multiset(stored.plan) == multiset(pass.edited.plan))
  }

  /** Exactly when a patched pass leaves the rollup of the envs it rolled up. */
  lemma PatchIsRightIff(envs: Envs, stored: Rollup, pass: Pass)
    requires Rolls(envs, pass.edited)
    ensures Rolls(envs, MergeRollup(stored, pass.base, pass.edited)) <==> Lands(stored, pass)
  {
    var merged := MergeRollup(stored, pass.base, pass.edited);
    RollsIff(envs, pass.edited);
    RollsIff(envs, merged);
    PlanIsPhases(envs, pass.edited.plan);
    PlanIsPhases(envs, merged.plan);
  }

  /** A pass that read what is stored always does. */
  lemma FreshReadLands(stored: Rollup, pass: Pass)
    requires pass.base == stored
    ensures Lands(stored, pass)
  {
  }

  // ---------- every run ----------

  ghost predicate Right(s: State, blankToo: bool) {
    && (s.pass.None? && !s.queued ==> Current(s.envs, Stored(s), blankToo))
    && (s.pass.Some? && !s.queued ==> Current(s.envs, s.pass.value.edited, blankToo))
  }

  /** No watch handler's List fails, the pass's own List works unless a blank is admitted, and a patch that
      ends a pass lands. */
  predicate Ordinary(s: State, e: Event, blankToo: bool) {
    match e
    case EnvPut(_, _, mapped) => mapped
    case EnvGone(_, mapped) => mapped
    case Begin(_, listed, _) => listed || blankToo
    case End(patched, stamped) => s.pass.Some? && patched && stamped && !s.queued ==> Lands(Stored(s), s.pass.value)
    case _ => true
  }

  ghost predicate Runs(s: State, es: seq<Event>, t: State, blankToo: bool)
    decreases |es|
  {
    if es == [] then s == t
    else Enabled(s, es[0]) && Ordinary(s, es[0], blankToo) && Runs(Apply(s, es[0]), es[1..], t, blankToo)
  }

  lemma DroppedPutKeepsCurrent(envs: Envs, name: string, env: FloxEnv, r: Rollup, blankToo: bool)
    requires Current(envs, r, blankToo) && !PutPasses(envs, name, env)
    ensures Current(envs[name := env], r, blankToo)
  {
    if order :| IsListing(order, envs) && r == RollupOf(order, envs) {
      DroppedUpdatesKeepTheRollup(order, envs, name, env);
    }
  }

  lemma LandedPatchIsCurrent(envs: Envs, stored: Rollup, pass: Pass, blankToo: bool)
    requires Current(envs, pass.edited, blankToo) && Lands(stored, pass)
    ensures Current(envs, MergeRollup(stored, pass.base, pass.edited), blankToo)
  {
    if Rolls(envs, pass.edited) {
      PatchIsRightIff(envs, stored, pass);
    } else {
      assert multiset(stored.plan) == multiset(BLANK.plan) ==> |stored.plan| == |multiset(stored.plan)| == 0;
      assert MergeRollup(stored, pass.base, pass.edited) == BLANK;
    }
  }

  lemma StepIsRight(s: State, e: Event, blankToo: bool)
    requires Right(s, blankToo) && Enabled(s, e) && Ordinary(s, e, blankToo)
    ensures Right(Apply(s, e), blankToo)
  {
    if e.EnvPut? && !s.queued && !PutPasses(s.envs, e.name, e.env) {
      var r := if s.pass.Some? then s.pass.value.edited else Stored(s);
      DroppedPutKeepsCurrent(s.envs, e.name, e.env, r, blankToo);
    } else if e.End? && e.patched && e.stamped && !s.queued {
      LandedPatchIsCurrent(s.envs, Stored(s), s.pass.value, blankToo);
    }
  }

  /** The filters lose nothing: over every run of ordinary events, whenever no pass is due or in flight, the
      stored rollup is that of the current envs; and where a pass's List may fail, it is that or blank. */
  lemma {:induction false} RollupIsNeverStale(s: State, es: seq<Event>, t: State, blankToo: bool)
    requires Right(s, blankToo) && Runs(s, es, t, blankToo)
    ensures Right(t, blankToo)
    ensures t.pass.None? && !t.queued ==> Current(t.envs, Stored(t), blankToo)
    decreases |es|
  {
    if es != [] {
      StepIsRight(s, es[0], blankToo);
      RollupIsNeverStale(Apply(s, es[0]), es[1..], t, blankToo);
    }
  }

  /** Every pass reads the catalog as it is stored, and no List fails where it matters. */
  predicate ReadsStored(s: State, e: Event, blankToo: bool) {
    match e
    case EnvPut(_, _, mapped) => mapped
    case EnvGone(_, mapped) => mapped
    case Begin(version, listed, _) => version == |s.stored| - 1 && (listed || blankToo)
    case _ => true
  }

  ghost predicate FreshRuns(s: State, es: seq<Event>, t: State, blankToo: bool)
    decreases |es|
  {
    if es == [] then s == t
    else Enabled(s, es[0]) && ReadsStored(s, es[0], blankToo) && FreshRuns(Apply(s, es[0]), es[1..], t, blankToo)
  }

  /** Only a pass writes the rollup, so the copy a pass read stays the stored one until its patch. */
  predicate PassIsFresh(s: State) { s.pass.Some? ==> s.pass.value.base == Stored(s) }

  lemma {:induction false} FreshRunsAreOrdinary(s: State, es: seq<Event>, t: State, blankToo: bool)
    requires PassIsFresh(s) && FreshRuns(s, es, t, blankToo)
    ensures Runs(s, es, t, blankToo)
    decreases |es|
  {
    if es != [] {
      if s.pass.Some? { FreshReadLands(Stored(s), s.pass.value); }
      FreshRunsAreOrdinary(Apply(s, es[0]), es[1..], t, blankToo);
    }
  }

  /** So with passes that read what is stored nothing need be asked of their patches. */
  lemma FreshPassesKeepTheRollup(s: State, es: seq<Event>, t: State, blankToo: bool)
    requires Right(s, blankToo) && PassIsFresh(s) && FreshRuns(s, es, t, blankToo)
    ensures t.pass.None? && !t.queued ==> Current(t.envs, Stored(t), blankToo)
  {
    FreshRunsAreOrdinary(s, es, t, blankToo);
    RollupIsNeverStale(s, es, t, blankToo);
  }

  /** And the last condition is exact: a pass over the current envs that ends with nothing queued ends right
      iff its patch lands. */
  lemma EndIsRightIffItLands(s: State)
    requires s.pass.Some? && !s.queued && Rolls(s.envs, s.pass.value.edited)
    ensures Right(Apply(s, End(true, true)), false) <==> Lands(Stored(s), s.pass.value)
  {
    PatchIsRightIff(s.envs, Stored(s), s.pass.value);
    var t := Apply(s, End(true, true));
    assert Stored(t) == MergeRollup(Stored(s), s.pass.value.base, s.pass.value.edited);
  }

  // ---------- how long a blank lasts ----------

  ghost predicate Steps(s: State, es: seq<Event>, t: State)
    decreases |es|
  {
    if es == [] then s == t else Enabled(s, es[0]) && Steps(Apply(s, es[0]), es[1..], t)
  }

  /** The event reaches the catalog's queue. */
  predicate ReachesTheQueue(s: State, e: Event) {
    match e
    case EnvPut(name, env, mapped) => mapped && PutPasses(s.envs, name, env)
    case EnvGone(_, mapped) => mapped
    case Wake => true
    case _ => false
  }

  ghost predicate NoneReachesTheQueue(s: State, es: seq<Event>)
    decreases |es|
  {
    es != [] && Enabled(s, es[0]) ==> !ReachesTheQueue(s, es[0]) && NoneReachesTheQueue(Apply(s, es[0]), es[1..])
  }

  /** Nothing due, nothing in flight, and this stored, all along the run. */
  ghost predicate StaysAtRest(s: State, es: seq<Event>, stored: Rollup)
    decreases |es|
  {
    && s.pass.None? && !s.queued && Stored(s) == stored
    && (es != [] && Enabled(s, es[0]) ==> StaysAtRest(Apply(s, es[0]), es[1..], stored))
  }

  /** Over every run from rest, what is stored stays, with nothing queued, iff no event reaches the queue. */
  lemma {:induction false} RestLastsUntilAnEventPasses(s: State, es: seq<Event>, t: State)
    requires s.pass.None? && !s.queued && Steps(s, es, t)
    ensures StaysAtRest(s, es, Stored(s)) <==> NoneReachesTheQueue(s, es)
    ensures NoneReachesTheQueue(s, es) ==> Stored(t) == Stored(s) && !t.queued && t.pass.None?
    decreases |es|
  {
    if es != [] && !ReachesTheQueue(s, es[0]) {
      RestLastsUntilAnEventPasses(Apply(s, es[0]), es[1..], t);
    }
  }

  lemma BlankIsNoRollup(envs: Envs)
    ensures !Rolls(envs, BLANK)
  {
    RollsIff(envs, BLANK);
    DecimalIsDigits(ReadyCount(envs));
  }

  /** How long the "transient" blank lasts, exactly: a pass whose List failed leaves it with nothing queued,
      and over every run of events after that it stays so iff none of them passes the filter. */
  lemma BlankLasts(s: State, es: seq<Event>, u: State)
    requires s.queued && s.pass.None?
    requires var begin, end := Begin(|s.stored| - 1, false, BLANK), End(true, true);
      Steps(Apply(Apply(s, begin), end), es, u)
    ensures var t := Apply(Apply(s, Begin(|s.stored| - 1, false, BLANK)), End(true, true));
      && t.pass.None? && !t.queued && Stored(t) == BLANK && !Rolls(t.envs, BLANK)
      && (StaysAtRest(t, es, BLANK) <==> NoneReachesTheQueue(t, es))
      && (NoneReachesTheQueue(t, es) ==> Stored(u) == BLANK && !Rolls(u.envs, BLANK))
  {
    var t := Apply(Apply(s, Begin(|s.stored| - 1, false, BLANK)), End(true, true));
    assert Stored(t) == BLANK;
    RestLastsUntilAnEventPasses(t, es, u);
    BlankIsNoRollup(t.envs);
    BlankIsNoRollup(u.envs);
  }

  // ---------- a stale read that matters ----------

  ghost predicate IsStep(s: State, e: Event, t: State) {
    Enabled(s, e) && t == Apply(s, e)
  }

  lemma Puts(s: State, name: string, env: FloxEnv) returns (t: State)
    requires PutPasses(s.envs, name, env)
    ensures IsStep(s, EnvPut(name, env, true), t) && t == s.(envs := s.envs[name := env], queued := true)
  {
    t := Apply(s, EnvPut(name, env, true));
  }

  lemma PassBegins(s: State, version: nat, made: Rollup) returns (t: State)
    requires s.queued && s.pass.None? && version < |s.stored| && Rolls(s.envs, made)
    ensures IsStep(s, Begin(version, true, made), t)
    ensures t == State(s.envs, s.stored, false, Some(Pass(s.stored[version], made)))
  {
    assert Enabled(s, Begin(version, true, made));
    t := Apply(s, Begin(version, true, made));
  }

  lemma PassEnds(s: State, base: Rollup, made: Rollup) returns (t: State)
    requires !s.queued && s.pass == Some(Pass(base, made))
    ensures IsStep(s, End(true, true), t)
    ensures t == State(s.envs, s.stored + [MergeRollup(Stored(s), base, made)], false, None)
  {
    t := Apply(s, End(true, true));
  }

  /** A whole pass that reads this version of the catalog, makes this rollup and succeeds. */
  lemma PassStores(s: State, version: nat, made: Rollup) returns (begun: State, t: State)
    requires s.queued && s.pass.None? && version < |s.stored| && Rolls(s.envs, made)
    ensures IsStep(s, Begin(version, true, made), begun) && IsStep(begun, End(true, true), t)
    ensures t == State(s.envs, s.stored + [MergeRollup(Stored(s), s.stored[version], made)], false, None)
  {
    begun := PassBegins(s, version, made);
    t := PassEnds(begun, s.stored[version], made);
  }

  /** An update to another phase, patched in full, and then a patch from before it back to before it. */
  lemma OldCopyMergesToNothing(order: seq<string>, envs: Envs, name: string, env: FloxEnv)
    requires IsListing(order, envs) && name in envs && Phase(env) != Phase(envs[name])
    ensures var x, y := RollupOf(order, envs), RollupOf(order, envs[name := env]);
      var z := MergeRollup(x, x, y);
      MergeRollup(z, x, x) == z && !Rolls(envs, z)
  {
    var i :| 0 <= i < |order| && order[i] == name;
    var moved := Plan(order, envs[name := env]);
    assert moved[i] == EnvPhase(name, Phase(env)) && Plan(order, envs)[i] == EnvPhase(name, Phase(envs[name]));
    forall other | IsListing(other, envs) ensures Plan(other, envs) != moved {
      assert i < |other| ==> Plan(other, envs)[i] == EnvPhase(other[i], Phase(envs[other[i]]));
    }
  }

  /** The env turns and a pass follows. */
  lemma RoundStores(s: State, name: string, env: FloxEnv, version: nat, made: Rollup) returns (put: State, begun: State, t: State)
    requires s.pass.None? && PutPasses(s.envs, name, env) && version < |s.stored| && Rolls(s.envs[name := env], made)
    ensures IsStep(s, EnvPut(name, env, true), put)
    ensures IsStep(put, Begin(version, true, made), begun) && IsStep(begun, End(true, true), t)
    ensures t.envs == s.envs[name := env] && !t.queued && t.pass.None?
    ensures |t.stored| > |s.stored| && t.stored[version] == s.stored[version]
    ensures Stored(t) == MergeRollup(Stored(s), s.stored[version], made)
  {
    put := Puts(s, name, env);
    begun, t := PassStores(put, version, made);
  }

  lemma PhaseMovesPass(envs: Envs, name: string, env: FloxEnv)
    requires name in envs && Phase(env) != Phase(envs[name])
    ensures PutPasses(envs, name, env)
  {
    ReadinessIsFaithful(envs[name], env);
  }

  /** An env turns and turns back, each change is followed by a pass, and both passes read the same version. */
  lemma ThereAndBack(s: State, name: string, env: FloxEnv, version: nat, made: Rollup, back: Rollup)
    returns (s1: State, s2: State, s3: State, s4: State, s5: State, t: State)
    requires s.pass.None? && name in s.envs && Phase(env) != Phase(s.envs[name]) && version < |s.stored|
    requires Rolls(s.envs[name := env], made) && Rolls(s.envs, back)
    ensures IsStep(s, EnvPut(name, env, true), s1) && IsStep(s1, Begin(version, true, made), s2) && IsStep(s2, End(true, true), s3)
    ensures IsStep(s3, EnvPut(name, s.envs[name], true), s4)
    ensures IsStep(s4, Begin(version, true, back), s5) && IsStep(s5, End(true, true), t)
    ensures t.envs == s.envs && !t.queued && t.pass.None?
    ensures var base := s.stored[version];
      Stored(t) == MergeRollup(MergeRollup(Stored(s), base, made), base, back)
  {
    PhaseMovesPass(s.envs, name, env);
    PhaseMovesPass(s.envs[name := env], name, s.envs[name]);
    s1, s2, s3 := RoundStores(s, name, env, version, made);
    assert s3.envs[name := s.envs[name]] == s.envs;
    s4, s5, t := RoundStores(s3, name, s.envs[name], version, back);
  }

  /** A patch that does not land does occur. When an env turns to another phase and back, each change is
      followed by a pass, and the second pass reads the catalog as it was before the first, then that pass
      finds nothing to send and the catalog is left, with nothing queued, with the phases that are no more. */
  lemma StaleReadKeepsAnOldRollup(s: State, name: string, env: FloxEnv, order: seq<string>)
    returns (s1: State, s2: State, s3: State, s4: State, s5: State, t: State)
    requires s.pass.None? && IsListing(order, s.envs) && Stored(s) == RollupOf(order, s.envs)
    requires name in s.envs && Phase(env) != Phase(s.envs[name])
    ensures IsStep(s, EnvPut(name, env, true), s1)
    ensures IsStep(s1, Begin(|s.stored| - 1, true, RollupOf(order, s.envs[name := env])), s2) && IsStep(s2, End(true, true), s3)
    ensures IsStep(s3, EnvPut(name, s.envs[name], true), s4)
    ensures IsStep(s4, Begin(|s.stored| - 1, true, Stored(s)), s5) && IsStep(s5, End(true, true), t)
    ensures t.envs == s.envs && !t.queued && t.pass.None? && !Current(s.envs, Stored(t), false)
  {
    var made := RollupOf(order, s.envs[name := env]);
    assert IsListing(order, s.envs[name := env]);
    assert Rolls(s.envs[name := env], made) && Rolls(s.envs, Stored(s));
    s1, s2, s3, s4, s5, t := ThereAndBack(s, name, env, |s.stored| - 1, made, Stored(s));
    OldCopyMergesToNothing(order, s.envs, name, env);
  }
}

/** internal/controller/floxcatalog_controller.go: the rollup a catalog keeps of its namespace's envs, and
    the filter that decides which env updates refresh it. */
module CatalogRollup {
  import opened FiniteSets
  import opened FloxApi

  /** The FloxEnvs of one namespace, by name. */
  type Envs = map<string, FloxEnv>

  datatype EnvPhase = EnvPhase(name: string, phase: string)

  datatype Rollup = Rollup(summary: string, plan: seq<EnvPhase>)

  const BLANK := Rollup("", [])

  // ---------- readiness ----------

  function StatusText(s: ConditionStatus): string {
    match s
    case True => "True"
    case False => "False"
    case Unknown => "Unknown"
  }

  function Readiness(env: FloxEnv): string {
    match env.status.ready
    case None => ""
    case Some(c) => StatusText(c.status) + "/" + c.reason
  }

  /** envReadinessChange: an update passes when the readiness texts differ. */
  predicate Passes(before: FloxEnv, after: FloxEnv) {
    Readiness(before) != Readiness(after)
  }

  function StatusAndReason(env: FloxEnv): Option<(ConditionStatus, string)> {
    match env.status.ready
    case None => None
    case Some(c) => Some((c.status, c.reason))
  }

  /** The text loses nothing: two envs have the same iff both lack the condition or agree on status and reason. */
  lemma ReadinessIsFaithful(a: FloxEnv, b: FloxEnv)
    ensures Passes(a, b) <==> StatusAndReason(a) != StatusAndReason(b)
    ensures !Passes(a, b) <==>
              match a.status.ready
              case None => b.status.ready.None?
              case Some(x) => b.status.ready.Some? && b.status.ready.value.status == x.status && b.status.ready.value.reason == x.reason
  {
    if a.status.ready.Some? && b.status.ready.Some? && Readiness(a) == Readiness(b) {
      var x, y := a.status.ready.value, b.status.ready.value;
      assert StatusText(x.status)[0] == Readiness(a)[0] && StatusText(y.status)[0] == Readiness(b)[0];
      assert x.status == y.status;
      assert x.reason == Readiness(a)[|StatusText(x.status)| + 1..];
      assert y.reason == Readiness(b)[|StatusText(y.status)| + 1..];
    } else if a.status.ready.Some? {
      assert Readiness(a) != "";
    } else if b.status.ready.Some? {
      assert Readiness(b) != "";
    }
  }

  function Phase(env: FloxEnv): string {
    match env.status.ready
    case None => ""
    case Some(c) => c.reason
  }

  predicate IsRealizing(env: FloxEnv) {
    env.status.ready.Some? && !IsReady(env) && env.status.ready.value.reason == REALIZING
  }

  // ---------- the summary line ----------

  function Digit(d: nat): char
    requires d < 10
  {
    ('0' as int + d) as char
  }

  function Decimal(n: nat): string {
    if n < 10 then [Digit(n)] else Decimal(n / 10) + [Digit(n % 10)]
  }

  lemma {:induction false} DecimalIsDigits(n: nat)
    ensures Decimal(n) != "" && forall c :: c in Decimal(n) ==> '0' <= c <= '9'
  {
    if n >= 10 {
      DecimalIsDigits(n / 10);
    }
  }

  lemma {:induction false} DecimalIsFaithful(a: nat, b: nat)
    requires Decimal(a) == Decimal(b)
    ensures a == b
  {
    var last := |Decimal(a)| - 1;
    if a >= 10 { DecimalIsDigits(a / 10); }
    if b >= 10 { DecimalIsDigits(b / 10); }
    assert Decimal(a)[last] == Digit(a % 10) && Decimal(b)[last] == Digit(b % 10);
    if a >= 10 && b >= 10 {
      assert Decimal(a)[..last] == Decimal(a / 10) && Decimal(b)[..last] == Decimal(b / 10);
      DecimalIsFaithful(a / 10, b / 10);
    }
  }

  /** The number a string of digits stands for. */
  function ValueOf(digits: string): nat
    requires forall c :: c in digits ==> '0' <= c <= '9'
  {
    if digits == "" then 0
    else
      assert forall i :: 0 <= i < |digits| ==> digits[i] in digits;
      10 * ValueOf(digits[..|digits| - 1]) + (digits[|digits| - 1] as int - '0' as int)
  }

  lemma {:induction false} DecimalReads(n: nat)
    ensures (forall c :: c in Decimal(n) ==> '0' <= c <= '9') && ValueOf(Decimal(n)) == n
    ensures |Decimal(n)| > 1 ==> Decimal(n)[0] != '0'
  {
    DecimalIsDigits(n);
    if n >= 10 {
      DecimalReads(n / 10);
      assert Decimal(n)[..|Decimal(n)| - 1] == Decimal(n / 10);
      assert |Decimal(n / 10)| == 1 ==> Decimal(n / 10)[0] == Digit(n / 10);
    } else {
      assert Decimal(n)[..0] == "";
    }
  }

  function Tail(realizing: nat): string {
    if realizing == 0 then "" else ", " + Decimal(realizing) + " realizing"
  }

  function Summary(ready: nat, total: nat, realizing: nat): string {
    Decimal(ready) + ['/'] + (Decimal(total) + [' '] + ("ready" + Tail(realizing)))
  }

  /** The line as it is read. */
  lemma SummaryReads(ready: nat, total: nat, realizing: nat)
    ensures Summary(ready, total, 0) == Decimal(ready) + "/" + Decimal(total) + " ready"
    ensures realizing > 0 ==>
              Summary(ready, total, realizing) == Decimal(ready) + "/" + Decimal(total) + " ready, " + Decimal(realizing) + " realizing"
  {
    LineOf(Decimal(ready), Decimal(total), "", "");
    LineOf(Decimal(ready), Decimal(total), Decimal(realizing), " realizing");
  }

  lemma LineOf(a: string, b: string, c: string, d: string)
    ensures a + ['/'] + (b + [' '] + ("ready" + "")) == a + "/" + b + " ready"
    ensures a + ['/'] + (b + [' '] + ("ready" + (", " + c + d))) == a + "/" + b + " ready, " + c + d
  {
    var x, y := a + ['/'] + (b + [' '] + ("ready" + (", " + c + d))), a + "/" + b + " ready, " + c + d;
    assert " ready, " == [' '] + "ready" + ", ";
    assert x == y;
  }

  lemma SameSplit(c: char, a: string, b: string, a': string, b': string)
    requires c !in a && c !in a' && a + [c] + b == a' + [c] + b'
    ensures a == a' && b == b'
  {
    var s := a + [c] + b;
    assert |a| == |a'| by {
      assert s[|a|] == c && s[|a'|] == c;
      assert forall i :: 0 <= i < |a| ==> s[i] == a[i];
      assert forall i :: 0 <= i < |a'| ==> s[i] == a'[i];
    }
    assert a == s[..|a|] && a' == s[..|a'|] && b == s[|a| + 1..] && b' == s[|a'| + 1..];
  }

  lemma TailIsFaithful(k: nat, k': nat)
    requires Tail(k) == Tail(k')
    ensures k == k'
  {
    if k != 0 && k' != 0 {
      DecimalIsDigits(k);
      DecimalIsDigits(k');
      assert Tail(k) == ", " + (Decimal(k) + [' '] + "realizing");
      assert Tail(k') == ", " + (Decimal(k') + [' '] + "realizing");
      assert Tail(k)[2..] == Decimal(k) + [' '] + "realizing" && Tail(k')[2..] == Decimal(k') + [' '] + "realizing";
      SameSplit(' ', Decimal(k), "realizing", Decimal(k'), "realizing");
      DecimalIsFaithful(k, k');
    }
  }

  /** The one-line summary can be read back: equal lines mean equal counts. */
  lemma SummaryIsFaithful(ready: nat, total: nat, realizing: nat, ready': nat, total': nat, realizing': nat)
    requires Summary(ready, total, realizing) == Summary(ready', total', realizing')
    ensures ready == ready' && total == total' && realizing == realizing'
  {
    DecimalIsDigits(ready);
    DecimalIsDigits(ready');
    DecimalIsDigits(total);
    DecimalIsDigits(total');
    var rest, rest' := "ready" + Tail(realizing), "ready" + Tail(realizing');
    SameSplit('/', Decimal(ready), Decimal(total) + [' '] + rest, Decimal(ready'), Decimal(total') + [' '] + rest');
    SameSplit(' ', Decimal(total), rest, Decimal(total'), rest');
    DecimalIsFaithful(ready, ready');
    DecimalIsFaithful(total, total');
    assert rest[5..] == Tail(realizing) && rest'[5..] == Tail(realizing');
    TailIsFaithful(realizing, realizing');
  }

  // ---------- the rollup ----------

  function Names(envs: Envs, test: FloxEnv -> bool): set<string> { set n | n in envs && test(envs[n]) }

  function ReadyCount(envs: Envs): nat { |Names(envs, IsReady)| }

  function RealizingCount(envs: Envs): nat { |Names(envs, IsRealizing)| }

  /** A List of the namespace, in whatever order it came. */
  ghost predicate IsListing(order: seq<string>, envs: Envs) {
    && (forall n :: n in order <==> n in envs)
    && (forall i, j :: 0 <= i < j < |order| ==> order[i] != order[j])
  }

  function Plan(order: seq<string>, envs: Envs): seq<EnvPhase>
    requires forall n :: n in order ==> n in envs
  {
    seq(|order|, i requires 0 <= i < |order| => EnvPhase(order[i], Phase(envs[order[i]])))
  }

  /** What the rollup means: how many envs are ready, exist and are being realised, and each one's phase. */
  function RollupOf(order: seq<string>, envs: Envs): Rollup
    requires forall n :: n in order ==> n in envs
  {
    Rollup(Summary(ReadyCount(envs), |envs|, RealizingCount(envs)), Plan(order, envs))
  }

  function Among(names: seq<string>, envs: Envs, test: FloxEnv -> bool): set<string> {
    set n | n in names && n in envs && test(envs[n])
  }

  lemma AmongAll(order: seq<string>, envs: Envs, test: FloxEnv -> bool)
    requires IsListing(order, envs)
    ensures Among(order[..|order|], envs, test) == Names(envs, test)
  {
  }

  lemma OneMore(order: seq<string>, envs: Envs, test: FloxEnv -> bool, i: nat)
    requires IsListing(order, envs) && i < |order|
    ensures |Among(order[..i + 1], envs, test)| == |Among(order[..i], envs, test)| + if test(envs[order[i]]) then 1 else 0
  {
    assert order[..i + 1] == order[..i] + [order[i]];
    if test(envs[order[i]]) {
      assert Among(order[..i + 1], envs, test) == Among(order[..i], envs, test) + {order[i]};
    } else {
      assert Among(order[..i + 1], envs, test) == Among(order[..i], envs, test);
    }
  }

  function Count(names: seq<string>, envs: Envs, test: FloxEnv -> bool): nat {
    if names == [] then 0
    else
      var last := names[|names| - 1];
      Count(names[..|names| - 1], envs, test) + if last in envs && test(envs[last]) then 1 else 0
  }

  lemma {:induction false} CountIsSize(order: seq<string>, envs: Envs, test: FloxEnv -> bool, i: nat)
    requires IsListing(order, envs) && i <= |order|
    ensures Count(order[..i], envs, test) == |Among(order[..i], envs, test)|
  {
    if i > 0 {
      CountIsSize(order, envs, test, i - 1);
      OneMore(order, envs, test, i - 1);
      assert order[..i][..i - 1] == order[..i - 1];
    }
  }

  lemma {:induction false} CountAll(order: seq<string>, envs: Envs, i: nat)
    requires IsListing(order, envs) && i <= |order|
    ensures Count(order[..i], envs, _ => true) == i
  {
    if i > 0 {
      CountAll(order, envs, i - 1);
      assert order[..i][..i - 1] == order[..i - 1];
    }
  }

  /** Counting along a listing counts the envs, whatever the order. */
  lemma CountsAreOfTheCluster(order: seq<string>, envs: Envs)
    requires IsListing(order, envs)
    ensures Count(order, envs, IsReady) == ReadyCount(envs)
    ensures Count(order, envs, IsRealizing) == RealizingCount(envs)
    ensures |order| == |envs|
  {
    assert order[..|order|] == order;
    CountIsSize(order, envs, IsReady, |order|);
    AmongAll(order, envs, IsReady);
    CountIsSize(order, envs, IsRealizing, |order|);
    AmongAll(order, envs, IsRealizing);
    CountIsSize(order, envs, _ => true, |order|);
    CountAll(order, envs, |order|);
    AmongAll(order, envs, _ => true);
    assert Names(envs, _ => true) == envs.Keys;
  }

  /** What the rollup says: how many envs have Ready True, how many there are, how many others are Realizing, and
      the reason of each one's condition. */
  ghost predicate Counts(rollup: Rollup, order: seq<string>, envs: Envs)
    requires IsListing(order, envs)
  {
    var isReady := set n | n in envs && envs[n].status.ready.Some? && envs[n].status.ready.value.status == True;
    var isRealizing := set n | n in envs && envs[n].status.ready.Some? && envs[n].status.ready.value.reason == "Realizing";
    && rollup.summary == Summary(|isReady|, |envs|, |isRealizing - isReady|)
    && |rollup.plan| == |order|
    && forall i :: 0 <= i < |order| ==>
         rollup.plan[i].name == order[i]
         && rollup.plan[i].phase == match envs[order[i]].status.ready { case None => "" case Some(ready) => ready.reason }
  }

  lemma RollupCounts(order: seq<string>, envs: Envs)
    requires IsListing(order, envs)
    ensures Counts(RollupOf(order, envs), order, envs)
  {
    var isReady := set n | n in envs && envs[n].status.ready.Some? && envs[n].status.ready.value.status == True;
    var isRealizing := set n | n in envs && envs[n].status.ready.Some? && envs[n].status.ready.value.reason == "Realizing";
    assert Names(envs, IsReady) == isReady && Names(envs, IsRealizing) == isRealizing - isReady;
  }

  lemma CountOneMore(order: seq<string>, envs: Envs, test: FloxEnv -> bool, i: nat)
    requires IsListing(order, envs) && i < |order|
    ensures Count(order[..i + 1], envs, test) == Count(order[..i], envs, test) + if test(envs[order[i]]) then 1 else 0
  {
    assert order[..i + 1][..i] == order[..i];
  }

  /** What the loop ends with. */
  lemma CountedRollup(order: seq<string>, envs: Envs, ready: nat, realizing: nat, plan: seq<EnvPhase>)
    requires IsListing(order, envs) && ready == Count(order, envs, IsReady) && realizing == Count(order, envs, IsRealizing)
    requires |plan| == |order| && forall j :: 0 <= j < |order| ==> plan[j] == EnvPhase(order[j], Phase(envs[order[j]]))
    ensures Rollup(Summary(ready, |order|, realizing), plan) == RollupOf(order, envs) && Counts(RollupOf(order, envs), order, envs)
  {
    CountsAreOfTheCluster(order, envs);
    assert plan == Plan(order, envs);
    RollupCounts(order, envs);
  }

  /** envsRollup. The two counters and the plan grow along the listing; a failed List leaves it blank. */
  method EnvsRollup(listed: Option<seq<string>>, envs: Envs) returns (rollup: Rollup)
    requires listed.Some? ==> IsListing(listed.value, envs)
    ensures rollup == if listed.None? then BLANK else RollupOf(listed.value, envs)
    ensures listed.None? ==> rollup.summary == "" && rollup.plan == []
    ensures listed.Some? ==> Counts(rollup, listed.value, envs)
  {
    if listed.None? {
      return BLANK;
    }
    var order := listed.value;
    var ready, realizing := 0, 0;
    var plan := [];
    for i := 0 to |order|
      invariant ready == Count(order[..i], envs, IsReady)
      invariant realizing == Count(order[..i], envs, IsRealizing)
      invariant |plan| == i && forall j :: 0 <= j < i ==> plan[j] == EnvPhase(order[j], Phase(envs[order[j]]))
    {
      CountOneMore(order, envs, IsReady, i);
      CountOneMore(order, envs, IsRealizing, i);
      var phase := "";
      var condition := envs[order[i]].status.ready;
      if condition.Some? {
        phase := condition.value.reason;
        if condition.value.status == True {
          ready := ready + 1;
        } else if condition.value.reason == REALIZING {
          realizing := realizing + 1;
        }
      }
      plan := plan + [EnvPhase(order[i], phase)];
    }
    assert order[..|order|] == order;
    rollup := Rollup(Summary(ready, |order|, realizing), plan);
    CountedRollup(order, envs, ready, realizing, plan);
  }

  /** No env is counted twice. */
  lemma CountsFit(envs: Envs)
    ensures ReadyCount(envs) + RealizingCount(envs) <= |envs|
  {
    var ready, realizing := Names(envs, IsReady), Names(envs, IsRealizing);
    SubsetIsSmaller(ready + realizing, envs.Keys);
    assert ready !! realizing;
  }

  lemma CountMoves(envs: Envs, name: string, env: FloxEnv, test: FloxEnv -> bool)
    requires name in envs
    ensures |Names(envs[name := env], test)| ==
            |Names(envs, test)| + (if test(env) then 1 else 0) - (if test(envs[name]) then 1 else 0)
  {
    var others := Names(envs, test) - {name};
    assert Names(envs, test) == if test(envs[name]) then others + {name} else others;
    assert Names(envs[name := env], test) == if test(env) then others + {name} else others;
  }

  /** An update moves the rollup exactly when it moves the env's phase or whether it is ready. */
  lemma UpdateMovesRollupIff(order: seq<string>, envs: Envs, name: string, env: FloxEnv)
    requires IsListing(order, envs) && name in envs
    ensures IsListing(order, envs[name := env])
    ensures RollupOf(order, envs[name := env]) == RollupOf(order, envs) <==>
            Phase(env) == Phase(envs[name]) && IsReady(env) == IsReady(envs[name])
  {
    var after := envs[name := env];
    CountMoves(envs, name, env, IsReady);
    CountMoves(envs, name, env, IsRealizing);
    assert after.Keys == envs.Keys;
    var i :| 0 <= i < |order| && order[i] == name;
    assert Plan(order, after)[i].phase == Phase(env) && Plan(order, envs)[i].phase == Phase(envs[name]);
    if Phase(env) == Phase(envs[name]) && IsReady(env) == IsReady(envs[name]) {
      assert IsRealizing(env) == IsRealizing(envs[name]);
      assert Plan(order, after) == Plan(order, envs);
    } else if RollupOf(order, after) == RollupOf(order, envs) {
      SummaryIsFaithful(ReadyCount(after), |after|, RealizingCount(after), ReadyCount(envs), |envs|, RealizingCount(envs));
    }
  }

  /** What envReadinessChange drops leaves every rollup as it was; what it passes for nothing is only a move
      between statuses that are not True, under the same reason. */
  lemma DroppedUpdatesKeepTheRollup(order: seq<string>, envs: Envs, name: string, env: FloxEnv)
    requires IsListing(order, envs) && name in envs
    ensures IsListing(order, envs[name := env])
    ensures !Passes(envs[name], env) ==> RollupOf(order, envs[name := env]) == RollupOf(order, envs)
    ensures Passes(envs[name], env) && RollupOf(order, envs[name := env]) == RollupOf(order, envs) ==>
              !IsReady(env) && !IsReady(envs[name]) && Phase(env) == Phase(envs[name])
  {
    ReadinessIsFaithful(envs[name], env);
    UpdateMovesRollupIff(order, envs, name, env);
  }
}

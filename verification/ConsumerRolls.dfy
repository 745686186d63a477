/** internal/controller/floxenv_restart.go: rolling the workloads that consume an env by stamping the digest
    of its lock on their pod templates. The digest is a parameter: nothing here depends on how it is
    computed, not even that distinct locks have distinct digests. */
module ConsumerRolls {
  import opened FloxApi
  import opened EnvRefs

  const RESTART_MARKER := "flox.seedmatic.io/restarted-for-lock"

  datatype WorkloadId = Deployment(key: Key) | DaemonSet(key: Key) | StatefulSet(key: Key)

  /** A workload as a List returned it: its pod template's annotations. */
  datatype Listed = Listed(id: WorkloadId, template: Annotations)

  type Workloads = map<WorkloadId, Annotations>

  function Marker(template: Annotations): string {
    if RESTART_MARKER in template then template[RESTART_MARKER] else ""
  }

  predicate Consumes(template: Annotations, target: EnvRef) {
    target in RefSet(template)
  }

  /** stampConsumer patches a workload only in this case. */
  predicate NeedsStamp(template: Annotations, target: EnvRef, digest: string) {
    Consumes(template, target) && Marker(template) != digest
  }

  /** Which workloads a pass for an env stamps, as their templates are written. */
  lemma StampsReads(template: Annotations, folder: string, name: string, digest: string)
    requires '/' !in name
    ensures NeedsStamp(template, EnvRef(folder, name), digest) <==>
            && (exists k :: k in template && "flox.seedmatic.io/environment." <= k
                            && (template[k] == folder + "/" + name || (template[k] == name != "" && folder == "networking")))
            && (if "flox.seedmatic.io/restarted-for-lock" in template
                then template["flox.seedmatic.io/restarted-for-lock"] != digest else digest != "")
  {
    RefSetReads(template, folder, name);
  }

  /** The marker is not an opt-in annotation, so stamping a workload leaves its references alone. */
  lemma StampKeepsRefs(template: Annotations, digest: string)
    ensures RefSet(template[RESTART_MARKER := digest]) == RefSet(template)
    ensures Marker(template[RESTART_MARKER := digest]) == digest
  {
    assert RESTART_MARKER[18] != ANNOTATION_PREFIX[18];
    var stamped := template[RESTART_MARKER := digest];
    forall r | r in RefSet(template) ensures r in RefSet(stamped) {
      var k :| k in template && OptsIn(k, template[k]) && ParseRef(template[k]) == r;
      assert k in stamped && stamped[k] == template[k];
    }
    forall r | r in RefSet(stamped) ensures r in RefSet(template) {
      var k :| k in stamped && OptsIn(k, stamped[k]) && ParseRef(stamped[k]) == r;
      assert k in template && stamped[k] == template[k];
    }
  }

  /** The stored workloads after the given ones were stamped. */
  function StampAll(stored: Workloads, ids: set<WorkloadId>, digest: string): Workloads {
    map id | id in stored :: if id in ids then stored[id][RESTART_MARKER := digest] else stored[id]
  }

  /** The workloads one pass patches, given what was listed and which patches the server accepts. */
  function Patched(listed: seq<Listed>, target: EnvRef, digest: string, accepts: WorkloadId -> bool): set<WorkloadId> {
    set i | 0 <= i < |listed| && NeedsStamp(listed[i].template, target, digest) && accepts(listed[i].id) :: listed[i].id
  }

  /** Every listed consumer of the target carried the digest when listed or accepted its stamp. */
  predicate AllRolled(listed: seq<Listed>, target: EnvRef, digest: string, accepts: WorkloadId -> bool) {
    forall i :: 0 <= i < |listed| && NeedsStamp(listed[i].template, target, digest) ==> accepts(listed[i].id)
  }

  class WorkloadStore {
    var stored: Workloads

    constructor (stored: Workloads)
      ensures this.stored == stored
    {
      this.stored := stored;
    }

    /** stampConsumer: false is a rejected patch. */
    method StampConsumer(listed: Listed, target: EnvRef, digest: string, accepts: WorkloadId -> bool) returns (ok: bool)
      modifies this
      ensures ok <==> AllRolled([listed], target, digest, accepts)
      ensures stored == StampAll(old(stored), Patched([listed], target, digest, accepts), digest)
    {
      assert [listed][0] == listed;
      ghost var patched := Patched([listed], target, digest, accepts);
      assert patched == if NeedsStamp(listed.template, target, digest) && accepts(listed.id) then {listed.id} else {};
      ok := true;
      if Consumes(listed.template, target) && Marker(listed.template) != digest {
        ok := accepts(listed.id);
        if ok && listed.id in stored {
          stored := stored[listed.id := stored[listed.id][RESTART_MARKER := digest]];
        }
      }
    }

    method StampEach(listed: seq<Listed>, target: EnvRef, digest: string, accepts: WorkloadId -> bool)
      returns (ok: bool)
      modifies this
      ensures ok <==> AllRolled(listed, target, digest, accepts)
      ensures stored == StampAll(old(stored), Patched(listed, target, digest, accepts), digest)
    {
      ok := true;
      assert stored == StampAll(old(stored), Patched(listed[..0], target, digest, accepts), digest);
      for i := 0 to |listed|
        invariant ok <==> AllRolled(listed[..i], target, digest, accepts)
        invariant stored == StampAll(old(stored), Patched(listed[..i], target, digest, accepts), digest)
      {
        var stamped := StampConsumer(listed[i], target, digest, accepts);
        ok := ok && stamped;
        assert listed[..i + 1] == listed[..i] + [listed[i]];
        PatchedOfConcatenation(listed[..i], [listed[i]], target, digest, accepts);
        StampAllOfUnion(old(stored), Patched(listed[..i], target, digest, accepts), Patched([listed[i]], target, digest, accepts), digest);
      }
      assert listed[..|listed|] == listed;
    }

    /** restartConsumers: three listings, any of which may fail, then one stamp per workload with the
        failures joined. It reports success exactly when every listed consumer carries the digest
        now, and patches exactly the consumers that did not carry it and whose patch is accepted. */
    method RestartConsumers(
      deployments: Option<seq<Listed>>, daemonSets: Option<seq<Listed>>, statefulSets: Option<seq<Listed>>,
      target: EnvRef, digest: string, accepts: WorkloadId -> bool)
      returns (ok: bool)
      modifies this
      ensures deployments.None? || daemonSets.None? || statefulSets.None? ==> !ok && stored == old(stored)
      ensures deployments.Some? && daemonSets.Some? && statefulSets.Some? ==>
                var listed := deployments.value + daemonSets.value + statefulSets.value;
                && (ok <==> AllRolled(listed, target, digest, accepts))
                && stored == StampAll(old(stored), Patched(listed, target, digest, accepts), digest)
    {
      if deployments.None? || daemonSets.None? || statefulSets.None? {
        return false;
      }
      var ok1 := StampEach(deployments.value, target, digest, accepts);
      var ok2 := StampEach(daemonSets.value, target, digest, accepts);
      var ok3 := StampEach(statefulSets.value, target, digest, accepts);
      ghost var first := Patched(deployments.value, target, digest, accepts);
      ghost var second := Patched(daemonSets.value, target, digest, accepts);
      PatchedOfConcatenation(deployments.value, daemonSets.value, target, digest, accepts);
      PatchedOfConcatenation(deployments.value + daemonSets.value, statefulSets.value, target, digest, accepts);
      StampAllOfUnion(old(stored), first, second, digest);
      StampAllOfUnion(old(stored), first + second, Patched(statefulSets.value, target, digest, accepts), digest);
      ok := ok1 && ok2 && ok3;
    }
  }

  lemma PatchedOfConcatenation(a: seq<Listed>, b: seq<Listed>, target: EnvRef, digest: string, accepts: WorkloadId -> bool)
    ensures Patched(a + b, target, digest, accepts) == Patched(a, target, digest, accepts) + Patched(b, target, digest, accepts)
    ensures AllRolled(a + b, target, digest, accepts)
            <==> AllRolled(a, target, digest, accepts) && AllRolled(b, target, digest, accepts)
  {
    var ab := a + b;
    assert forall i :: 0 <= i < |a| ==> ab[i] == a[i];
    assert forall i :: 0 <= i < |b| ==> ab[i + |a|] == b[i];
  }

  lemma StampAllOfUnion(stored: Workloads, a: set<WorkloadId>, b: set<WorkloadId>, digest: string)
    ensures StampAll(StampAll(stored, a, digest), b, digest) == StampAll(stored, a + b, digest)
  {
    forall id | id in stored
      ensures stored[id][RESTART_MARKER := digest][RESTART_MARKER := digest] == stored[id][RESTART_MARKER := digest]
    {
    }
  }

  /** One pass of a retried roll for `target`; it lists the stored state, and the patches of `failing`
      are rejected. */
  datatype Pass = Pass(target: EnvRef, failing: set<WorkloadId>)

  ghost predicate PatchesIt(template: Annotations, id: WorkloadId, digestOf: EnvRef -> string, pass: Pass) {
    NeedsStamp(template, pass.target, digestOf(pass.target)) && id !in pass.failing
  }

  /** What a sequence of passes makes of one workload. */
  ghost function Evolve(template: Annotations, id: WorkloadId, digestOf: EnvRef -> string, passes: seq<Pass>): Annotations
    decreases |passes|
  {
    if passes == [] then template
    else if PatchesIt(template, id, digestOf, passes[0])
    then Evolve(template[RESTART_MARKER := digestOf(passes[0].target)], id, digestOf, passes[1..])
    else Evolve(template, id, digestOf, passes[1..])
  }

  ghost function AfterPasses(stored: Workloads, digestOf: EnvRef -> string, passes: seq<Pass>): Workloads {
    map id | id in stored :: Evolve(stored[id], id, digestOf, passes)
  }

  /** A pass of the model is RestartConsumers run on a listing of the stored workloads. */
  lemma PassIsRestartConsumers(
    stored: Workloads, listed: seq<Listed>, digestOf: EnvRef -> string, pass: Pass, accepts: WorkloadId -> bool)
    requires forall i :: 0 <= i < |listed| ==> listed[i].id in stored && stored[listed[i].id] == listed[i].template
    requires forall id :: id in stored ==> Listed(id, stored[id]) in listed && (accepts(id) <==> id !in pass.failing)
    ensures AfterPasses(stored, digestOf, [pass])
            == StampAll(stored, Patched(listed, pass.target, digestOf(pass.target), accepts), digestOf(pass.target))
    ensures AllRolled(listed, pass.target, digestOf(pass.target), accepts)
            <==> Unstamped(AfterPasses(stored, digestOf, [pass]), pass.target, digestOf(pass.target)) == {}
  {
    var digest := digestOf(pass.target);
    var patched := Patched(listed, pass.target, digest, accepts);
    forall id | id in stored
      ensures id in patched <==> PatchesIt(stored[id], id, digestOf, pass)
      ensures Evolve(stored[id], id, digestOf, [pass])
              == if id in patched then stored[id][RESTART_MARKER := digest] else stored[id]
    {
      var i :| 0 <= i < |listed| && listed[i] == Listed(id, stored[id]);
    }
    PassShrinksUnstamped(stored, digestOf, pass);
    var left := Unstamped(stored, pass.target, digest) * pass.failing;
    if AllRolled(listed, pass.target, digest, accepts) {
      forall id | id in Unstamped(stored, pass.target, digest) ensures id !in pass.failing {
        var i :| 0 <= i < |listed| && listed[i] == Listed(id, stored[id]);
      }
      assert left == {};
    } else {
      var i :| 0 <= i < |listed| && NeedsStamp(listed[i].template, pass.target, digest) && !accepts(listed[i].id);
      assert listed[i].id in left;
    }
  }

  ghost function Unstamped(stored: Workloads, target: EnvRef, digest: string): set<WorkloadId> {
    set id | id in stored && NeedsStamp(stored[id], target, digest)
  }

  /** A pass leaves unstamped exactly the consumers whose patch was rejected: every accepted patch
      strictly shrinks that set, and a pass that fails nowhere empties it. */
  lemma PassShrinksUnstamped(stored: Workloads, digestOf: EnvRef -> string, pass: Pass)
    ensures var digest := digestOf(pass.target);
      Unstamped(AfterPasses(stored, digestOf, [pass]), pass.target, digest)
      == Unstamped(stored, pass.target, digest) * pass.failing
  {
    forall id | id in stored
      ensures var after := Evolve(stored[id], id, digestOf, [pass]);
        after == if PatchesIt(stored[id], id, digestOf, pass) then stored[id][RESTART_MARKER := digestOf(pass.target)] else stored[id]
    {
    }
    forall id | id in stored
      ensures Consumes(stored[id][RESTART_MARKER := digestOf(pass.target)], pass.target) == Consumes(stored[id], pass.target)
      ensures Marker(stored[id][RESTART_MARKER := digestOf(pass.target)]) == digestOf(pass.target)
    {
      StampKeepsRefs(stored[id], digestOf(pass.target));
    }
  }

  lemma {:induction false} EvolveComposes(t: Annotations, id: WorkloadId, digestOf: EnvRef -> string, a: seq<Pass>, b: seq<Pass>)
    ensures Evolve(t, id, digestOf, a + b) == Evolve(Evolve(t, id, digestOf, a), id, digestOf, b)
    decreases |a|
  {
    if a == [] {
      assert a + b == b;
    } else {
      assert (a + b)[1..] == a[1..] + b;
      EvolveComposes(t, id, digestOf, a[1..], b);
      EvolveComposes(t[RESTART_MARKER := digestOf(a[0].target)], id, digestOf, a[1..], b);
    }
  }

  /** Passes never change what a workload consumes. */
  lemma {:induction false} EvolveKeepsRefs(t: Annotations, id: WorkloadId, digestOf: EnvRef -> string, passes: seq<Pass>)
    ensures RefSet(Evolve(t, id, digestOf, passes)) == RefSet(t)
    decreases |passes|
  {
    if passes != [] {
      StampKeepsRefs(t, digestOf(passes[0].target));
      EvolveKeepsRefs(t, id, digestOf, passes[1..]);
      EvolveKeepsRefs(t[RESTART_MARKER := digestOf(passes[0].target)], id, digestOf, passes[1..]);
    }
  }

  /** All the envs a workload consumes are at locks with one digest. */
  ghost predicate OneDigest(t: Annotations, digestOf: EnvRef -> string) {
    forall a, b :: a in RefSet(t) && b in RefSet(t) ==> digestOf(a) == digestOf(b)
  }

  /** Once a workload carries the digest of every env it consumes, no pass touches it. */
  lemma {:induction false} StampedIsLeftAlone(t: Annotations, id: WorkloadId, digestOf: EnvRef -> string, passes: seq<Pass>)
    requires forall r :: r in RefSet(t) ==> Marker(t) == digestOf(r)
    ensures Evolve(t, id, digestOf, passes) == t
    decreases |passes|
  {
    if passes != [] {
      StampedIsLeftAlone(t, id, digestOf, passes[1..]);
    }
  }

  /** The i-th pass patches the workload. */
  ghost predicate PatchedAt(t: Annotations, id: WorkloadId, digestOf: EnvRef -> string, passes: seq<Pass>, i: nat)
    requires i < |passes|
  {
    PatchesIt(Evolve(t, id, digestOf, passes[..i]), id, digestOf, passes[i])
  }

  /** However often the rolls of any number of envs fail and are retried at unchanged locks, a workload whose
      envs have one digest, as one that consumes a single env does, is patched at most once. */
  lemma NeverPatchedTwice(t: Annotations, id: WorkloadId, digestOf: EnvRef -> string, passes: seq<Pass>, i: nat, j: nat)
    requires OneDigest(t, digestOf) && i < j < |passes| && PatchedAt(t, id, digestOf, passes, i)
    ensures !PatchedAt(t, id, digestOf, passes, j)
  {
    var before := Evolve(t, id, digestOf, passes[..i]);
    EvolveKeepsRefs(t, id, digestOf, passes[..i]);
    var digest := digestOf(passes[i].target);
    var stamped := before[RESTART_MARKER := digest];
    StampKeepsRefs(before, digest);
    assert Evolve(before, id, digestOf, [passes[i]] + passes[i + 1..j]) == Evolve(stamped, id, digestOf, passes[i + 1..j]);
    StampedIsLeftAlone(stamped, id, digestOf, passes[i + 1..j]);
    assert passes[..j] == passes[..i] + ([passes[i]] + passes[i + 1..j]);
    EvolveComposes(t, id, digestOf, passes[..i], [passes[i]] + passes[i + 1..j]);
  }

  ghost predicate PatchedTwice(t: Annotations, id: WorkloadId, digestOf: EnvRef -> string, passes: seq<Pass>) {
    exists i, j :: 0 <= i < j < |passes| && PatchedAt(t, id, digestOf, passes, i) && PatchedAt(t, id, digestOf, passes, j)
  }

  /** A pass that fails nowhere leaves a consumer at its env's digest. */
  lemma PassStamps(t: Annotations, id: WorkloadId, digestOf: EnvRef -> string, a: EnvRef)
    requires Consumes(t, a)
    ensures var after := Evolve(t, id, digestOf, [Pass(a, {})]);
      Marker(after) == digestOf(a) && RefSet(after) == RefSet(t)
  {
    StampKeepsRefs(t, digestOf(a));
    assert [Pass(a, {})][1..] == [];
  }

  lemma TwoDigestsPatchTwice(t: Annotations, id: WorkloadId, digestOf: EnvRef -> string, a: EnvRef, b: EnvRef)
    requires Consumes(t, a) && Consumes(t, b) && digestOf(a) != digestOf(b)
    ensures PatchedTwice(t, id, digestOf, [Pass(a, {}), Pass(b, {}), Pass(a, {})])
  {
    var first, second := Pass(a, {}), Pass(b, {});
    var passes := [first, second, first];
    var once := Evolve(t, id, digestOf, [first]);
    PassStamps(t, id, digestOf, a);
    assert passes[..1] == [first] && PatchedAt(t, id, digestOf, passes, 1);
    PassStamps(once, id, digestOf, b);
    EvolveComposes(t, id, digestOf, [first], [second]);
    assert passes[..2] == [first] + [second] && PatchedAt(t, id, digestOf, passes, 2);
  }

  lemma OneDigestNeverTwice(t: Annotations, id: WorkloadId, digestOf: EnvRef -> string, passes: seq<Pass>)
    requires OneDigest(t, digestOf)
    ensures !PatchedTwice(t, id, digestOf, passes)
  {
    forall i, j | 0 <= i < j < |passes| && PatchedAt(t, id, digestOf, passes, i) ensures !PatchedAt(t, id, digestOf, passes, j) {
      NeverPatchedTwice(t, id, digestOf, passes, i, j);
    }
  }

  /** Exactly when rolling does not settle: some sequence of passes patches a workload twice iff it consumes
      two envs with different digests, because they share its one marker. */
  lemma PatchedTwiceIffDigestsDiffer(t: Annotations, id: WorkloadId, digestOf: EnvRef -> string)
    ensures (exists passes :: PatchedTwice(t, id, digestOf, passes)) <==> !OneDigest(t, digestOf)
  {
    if OneDigest(t, digestOf) {
      forall passes ensures !PatchedTwice(t, id, digestOf, passes) { OneDigestNeverTwice(t, id, digestOf, passes); }
    } else {
      var a, b :| a in RefSet(t) && b in RefSet(t) && digestOf(a) != digestOf(b);
      TwoDigestsPatchTwice(t, id, digestOf, a, b);
    }
  }

  /** The alternation itself: two passes bring such a workload back to where it was. */
  lemma SharedMarkerAlternates(t: Annotations, id: WorkloadId, digestOf: EnvRef -> string, a: EnvRef, b: EnvRef)
    requires Consumes(t, a) && Consumes(t, b) && digestOf(a) != digestOf(b)
    requires RESTART_MARKER in t && t[RESTART_MARKER] == digestOf(b)
    ensures PatchedAt(t, id, digestOf, [Pass(a, {}), Pass(b, {})], 0) && PatchedAt(t, id, digestOf, [Pass(a, {}), Pass(b, {})], 1)
    ensures Evolve(t, id, digestOf, [Pass(a, {}), Pass(b, {})]) == t
  {
    var passes := [Pass(a, {}), Pass(b, {})];
    StampKeepsRefs(t, digestOf(a));
    var once := t[RESTART_MARKER := digestOf(a)];
    assert passes[..0] == [] && passes[..1] == [Pass(a, {})] && passes[1..] == [Pass(b, {})];
    assert [Pass(a, {})][1..] == [] && [Pass(b, {})][1..] == [];
    assert Evolve(once, id, digestOf, [Pass(b, {})]) == once[RESTART_MARKER := digestOf(b)];
    assert once[RESTART_MARKER := digestOf(b)] == t;
  }
}

/** FloxEnvReconciler.Reconcile run to its end without interference, as the method it is: the status
    fields of a local copy updated step by step between API calls. */
module EnvReconcile {
  import opened FloxApi
  import opened EnvRefs
  import opened EnvStatusRecord
  import opened ConsumerRolls
  import opened FlakeInstalls
  import opened EnvMachine

  const FLOX_SCHEMA_VERSION := "1.14.0"

  datatype RealizeRequest = RealizeRequest(target: EnvRef, manifest: Manifest, lock: string)

  /** What the calls a reconcile makes return: decoding the manifest, catalogs, encoding the resolved one,
      whether the wait for a slot ended with one (or with the context cancelled), the provisioner, the three
      workload lists, the workload patches, and its first and last status patch. */
  datatype World = World(
    decodes: bool,
    catalogs: Key -> CatalogRead,
    encodes: Manifest -> bool,
    slot: bool,
    realize: RealizeRequest -> Option<RealizeResult>,
    deployments: Option<seq<Listed>>, daemonSets: Option<seq<Listed>>, statefulSets: Option<seq<Listed>>,
    accepts: WorkloadId -> bool,
    digest: string -> string,
    first: bool, last: bool)

  datatype Outcome = Done | Requeue | RequeueAfter(seconds: nat) | Error

  /** The reason and message of a manifest that is waiting or failing; which of several obstacles is
      found first depends on the order the install table is visited in. */
  datatype Refusal = Refusal(reason: string, message: string)

  predicate IsRefusal(reason: string) {
    reason == SERIALIZE_FAILED || reason == FLAKE_RESOLVE_FAILED || reason == WAITING_FOR_FLAKE
  }

  /** The refusal names an obstacle the install table has: an entry that waits, or one that fails. */
  ghost predicate Reports(reason: string, ns: string, catalogs: Key -> CatalogRead, m: Manifest) {
    var install := InstallTable(m);
    || (reason == WAITING_FOR_FLAKE && exists id :: id in install && ResolveEntry(ns, catalogs, install[id]) == Wait)
    || (reason == FLAKE_RESOLVE_FAILED && exists id :: id in install && ResolveEntry(ns, catalogs, install[id]).Fail?)
  }

  /** manifestToTOML's content: flox's own schema version is filled in unless the manifest sets it. */
  function WithSchemaVersion(m: Manifest): Manifest {
    if |m| == 0 || "schema-version" in m then m else m["schema-version" := Text(FLOX_SCHEMA_VERSION)]
  }

  /** unmetDeps: the declared names, in order, that are missing or not Ready. */
  function Unmet(envs: map<Key, FloxEnv>, key: Key, names: seq<string>): seq<string> {
    if names == [] then []
    else
      var dep := DepKey(key, names[0]);
      (if dep in envs && IsReady(envs[dep]) then [] else [names[0]]) + Unmet(envs, key, names[1..])
  }

  lemma {:induction false} UnmetOfConcatenation(envs: map<Key, FloxEnv>, key: Key, a: seq<string>, b: seq<string>)
    ensures Unmet(envs, key, a + b) == Unmet(envs, key, a) + Unmet(envs, key, b)
  {
    if a == [] {
      assert a + b == b;
    } else {
      assert (a + b)[1..] == a[1..] + b;
      UnmetOfConcatenation(envs, key, a[1..], b);
    }
  }

  /** Nothing is unmet exactly when every declared name is an env that is Ready. */
  lemma {:induction false} NothingUnmet(envs: map<Key, FloxEnv>, key: Key, names: seq<string>)
    ensures Unmet(envs, key, names) == [] <==>
            forall name :: name in names ==>
              && Key(key.ns, name) in envs && envs[Key(key.ns, name)].status.ready.Some?
              && envs[Key(key.ns, name)].status.ready.value.status == True
  {
    if names != [] {
      assert names == [names[0]] + names[1..];
      NothingUnmet(envs, key, names[1..]);
    }
  }

  // ---------- the specification ----------

  function PatchStatus(envs: map<Key, FloxEnv>, key: Key, base: EnvStatus, edited: EnvStatus, accepted: bool):
    map<Key, FloxEnv>
    requires key in envs
  {
    if accepted then envs[key := envs[key].(status := MergePatch(envs[key].status, base, edited))] else envs
  }

  function NotReady(env: FloxEnv, reason: string, message: string): EnvStatus {
    WithReady(env, False, reason, message)
  }

  function RequestFor(key: Key, env: FloxEnv, resolved: Manifest): RealizeRequest {
    RealizeRequest(Coordinate(key, env), WithSchemaVersion(resolved), RequestedLock(env))
  }

  /** restartConsumers succeeds: all three lists came back and every listed consumer took its stamp. */
  predicate RollSucceeds(w: World, target: EnvRef, lock: string) {
    && w.deployments.Some? && w.daemonSets.Some? && w.statefulSets.Some?
    && AllRolled(w.deployments.value + w.daemonSets.value + w.statefulSets.value, target, w.digest(lock), w.accepts)
  }

  /** The workloads after restartConsumers ran over them. */
  function AfterRoll(workloads: Workloads, w: World, target: EnvRef, lock: string): Workloads {
    if w.deployments.Some? && w.daemonSets.Some? && w.statefulSets.Some? then
      var listed := w.deployments.value + w.daemonSets.value + w.statefulSets.value;
      StampAll(workloads, Patched(listed, target, w.digest(lock), w.accepts), w.digest(lock))
    else workloads
  }

  /** The stored objects and workloads, and how a reconcile returns. */
  datatype Result = Result(envs: map<Key, FloxEnv>, workloads: Workloads, outcome: Outcome)

  /** Once Realize succeeded: roll if the lock is new, commit. */
  ghost function AfterBuild(
    node: string, envs: map<Key, FloxEnv>, workloads: Workloads, key: Key, read: FloxEnv, view: FloxEnv, result: RealizeResult, w: World):
    Result
    requires key in envs
  {
    var target := Coordinate(key, view);
    var rolled := if NeedsRoll(read, result) then AfterRoll(workloads, w, target, result.lock) else workloads;
    if NeedsRoll(read, result) && !RollSucceeds(w, target, result.lock) then
      Result(PatchStatus(envs, key, view.status, NotReady(view, RESTART_CONSUMERS_FAILED, "restart failed"), w.last), rolled, Error)
    else
      Result(PatchStatus(envs, key, view.status, CommittedStatus(node, read, view, result), w.last), rolled,
             if w.last then Done else Error)
  }

  ghost function AfterRealizeCall(
    node: string, envs: map<Key, FloxEnv>, workloads: Workloads, key: Key, read: FloxEnv, view: FloxEnv, made: Option<RealizeResult>,
    w: World): Result
    requires key in envs
  {
    match made
    case None =>
      Result(PatchStatus(envs, key, view.status, NotReady(view, REALIZE_FAILED, "realize failed"), w.last), workloads, Error)
    case Some(result) => AfterBuild(node, envs, workloads, key, read, view, result, w)
  }

  /** Once the slot is taken: announce, and go on with what Realize made. */
  ghost function AfterSlot(
    node: string, envs: map<Key, FloxEnv>, workloads: Workloads, key: Key, made: Option<RealizeResult>, w: World): Result
    requires key in envs
  {
    var env := envs[key];
    var announced := PatchStatus(envs, key, env.status, RealizingStatus(node, env), w.first);
    var view := if w.first then announced[key] else env.(status := RealizingStatus(node, env));
    AfterRealizeCall(node, announced, workloads, key, env, view, made, w)
  }

  ghost function AfterRealize(node: string, envs: map<Key, FloxEnv>, workloads: Workloads, key: Key, w: World): Result
    requires key in envs && AllResolve(key.ns, w.catalogs, envs[key].spec.manifest)
  {
    var env := envs[key];
    AfterSlot(node, envs, workloads, key, w.realize(RequestFor(key, env, ResolvedManifest(key.ns, w.catalogs, env.spec.manifest))), w)
  }

  /** What the provisioner is asked to realise: the resolved manifest, with flox's schema version filled in where
      there is a manifest without one; under the env's folder, or its namespace if it has none; with the pin,
      unless the relock annotation differs from the honoured one. */
  ghost predicate AsksFor(asked: RealizeRequest, key: Key, env: FloxEnv, resolved: Manifest) {
    && asked.target.name == key.name
    && (env.spec.folder == "" ==> asked.target.folder == key.ns)
    && (env.spec.folder != "" ==> asked.target.folder == env.spec.folder)
    && (env.relock == env.status.relockToken ==> asked.lock == env.status.lock)
    && (env.relock != env.status.relockToken ==> asked.lock == "")
    && (resolved == map[] ==> asked.manifest == map[])
    && (forall k :: k in resolved ==> k in asked.manifest && asked.manifest[k] == resolved[k])
    && (forall k :: k in asked.manifest && k !in resolved ==>
          k == "schema-version" && asked.manifest[k] == Text("1.14.0"))
    && (resolved != map[] ==> "schema-version" in asked.manifest)
  }

  /** The roll is of the env that was asked for: it stamps what consumes that very coordinate. */
  lemma RollIsOfTheRequest(
    node: string, envs: map<Key, FloxEnv>, workloads: Workloads, key: Key, asked: RealizeRequest, resolved: Manifest,
    result: RealizeResult, w: World)
    requires key in envs && AsksFor(asked, key, envs[key], resolved) && result.lock != "" && result.lock != envs[key].status.lock
    ensures AfterSlot(node, envs, workloads, key, Some(result), w).workloads == AfterRoll(workloads, w, asked.target, result.lock)
  {
    assert asked.target == Coordinate(key, envs[key]);
  }

  lemma RequestAsksFor(key: Key, env: FloxEnv, resolved: Manifest)
    ensures AsksFor(RequestFor(key, env, resolved), key, env, resolved)
  {
    assert |resolved| == 0 <==> resolved == map[];
  }

  /** Once the manifest is ready: hold for dependencies, wait for a slot, go on. */
  ghost function AfterDeps(node: string, envs: map<Key, FloxEnv>, workloads: Workloads, key: Key, w: World): Result
    requires key in envs && AllResolve(key.ns, w.catalogs, envs[key].spec.manifest)
  {
    var env := envs[key];
    var unmet := Unmet(envs, key, env.spec.dependsOn);
    if unmet != [] then
      var message := "waiting for FloxEnvs to be Ready: " + Joined(unmet);
      Result(PatchStatus(envs, key, env.status, NotReady(env, WAITING_FOR_DEPS, message), w.first), workloads, RequeueAfter(10))
    else if !w.slot then Result(envs, workloads, Error)
    else AfterRealize(node, envs, workloads, key, w)
  }

  /** What one undisturbed reconcile of key makes of the stored objects, and how it returns. */
  ghost function AfterReconcile(
    node: string, envs: map<Key, FloxEnv>, workloads: Workloads, key: Key, refusal: Refusal, w: World): Result
  {
    if key !in envs then Result(envs, workloads, Done)
    else
      var env := envs[key];
      if env.status.ready.None? then
        Result(PatchStatus(envs, key, env.status, NotReady(env, PENDING, "queued for realisation"), w.first), workloads,
               if w.first then Requeue else Error)
      else if AlreadyRealized(node, env) then Result(envs, workloads, Done)
      else if !w.decodes then
        Result(PatchStatus(envs, key, env.status, NotReady(env, SERIALIZE_FAILED, refusal.message), w.first), workloads, Error)
      else if !AllResolve(key.ns, w.catalogs, env.spec.manifest) then
        Result(PatchStatus(envs, key, env.status, NotReady(env, refusal.reason, refusal.message), w.first), workloads,
               if refusal.reason == WAITING_FOR_FLAKE then RequeueAfter(15) else Error)
      else if !w.encodes(WithSchemaVersion(ResolvedManifest(key.ns, w.catalogs, env.spec.manifest))) then
        Result(PatchStatus(envs, key, env.status, NotReady(env, SERIALIZE_FAILED, refusal.message), w.first), workloads, Error)
      else AfterDeps(node, envs, workloads, key, w)
  }

  /** How a reconcile that builds nothing returns: done for an object that is gone or realised, soon after a first
      touch, in 15 seconds for a catalog, in 10 for dependencies, with an error for anything that failed. */
  lemma ReturnsReads(
    node: string, envs: map<Key, FloxEnv>, workloads: Workloads, key: Key, refusal: Refusal, w: World)
    ensures var outcome := AfterReconcile(node, envs, workloads, key, refusal, w).outcome;
      if key !in envs then outcome == Done
      else
        var env := envs[key];
        if env.status.ready.None? then outcome == if w.first then Requeue else Error
        else if AlreadyRealized(node, env) then outcome == Done
        else if !w.decodes then outcome == Error
        else if !AllResolve(key.ns, w.catalogs, env.spec.manifest) then
          (refusal.reason == "WaitingForFlake" ==> outcome == RequeueAfter(15)) && (refusal.reason != "WaitingForFlake" ==> outcome == Error)
        else if !w.encodes(WithSchemaVersion(ResolvedManifest(key.ns, w.catalogs, env.spec.manifest))) then outcome == Error
        else if exists name :: name in env.spec.dependsOn && !(Key(key.ns, name) in envs && IsReady(envs[Key(key.ns, name)]))
        then outcome == RequeueAfter(10)
        else outcome == Done || outcome == Error
  {
    if key in envs { NothingUnmet(envs, key, envs[key].spec.dependsOn); }
  }

  // ---------- the method ----------

  class FloxEnvReconciler {
    const node: string
    const capacity: nat
    var envs: map<Key, FloxEnv>
    var occupied: nat
    const consumers: WorkloadStore

    constructor (node: string, capacity: nat, envs: map<Key, FloxEnv>, workloads: Workloads)
      ensures this.node == node && this.capacity == capacity && this.envs == envs && occupied == 0
      ensures fresh(consumers) && consumers.stored == workloads
    {
      this.node, this.capacity, this.envs, this.occupied := node, capacity, envs, 0;
      this.consumers := new WorkloadStore(workloads);
    }

    /** alreadyRealized. */
    method IsAlreadyRealized(env: FloxEnv) returns (r: bool)
      ensures r <==>
                && env.relock == env.status.relockToken
                && exists i :: 0 <= i < |env.status.realized| && env.status.realized[i].node == node
                     && env.status.realized[i].ready && env.status.realized[i].observed == env.generation
      ensures r <==> AlreadyRealized(node, env)
    {
      if env.relock != env.status.relockToken {
        return false;
      }
      for i := 0 to |env.status.realized|
        invariant forall j :: 0 <= j < i ==>
          var e := env.status.realized[j]; !(e.node == node && e.ready && e.observed == env.generation)
      {
        var e := env.status.realized[i];
        if e.node == node && e.ready && e.observed == env.generation {
          return true;
        }
      }
      return false;
    }

    method UnmetDeps(key: Key, env: FloxEnv) returns (unmet: seq<string>)
      ensures unmet == Unmet(envs, key, env.spec.dependsOn)
    {
      unmet := [];
      var names := env.spec.dependsOn;
      for i := 0 to |names|
        invariant unmet == Unmet(envs, key, names[..i])
      {
        UnmetOfConcatenation(envs, key, names[..i], [names[i]]);
        assert names[..i + 1] == names[..i] + [names[i]];
        var dep := DepKey(key, names[i]);
        if dep !in envs || !IsReady(envs[dep]) {
          unmet := unmet + [names[i]];
        }
      }
      assert names[..|names|] == names;
    }

    /** client.MergeFrom and Status().Patch; an accepted patch refreshes the local copy. */
    method PatchStatusOf(key: Key, local: LocalEnv, base: EnvStatus, accepted: bool)
      requires key in envs
      modifies this`envs, local
      ensures envs == PatchStatus(old(envs), key, base, old(local.env).status, accepted)
      ensures local.env == if accepted then envs[key] else old(local.env)
    {
      if accepted {
        envs := envs[key := envs[key].(status := MergePatch(envs[key].status, base, local.env.status))];
        local.env := envs[key];
      }
    }

    /** SetStatusCondition(Ready=False) and its patch. */
    method MarkNotReady(key: Key, local: LocalEnv, reason: string, message: string, accepted: bool)
      requires key in envs
      modifies this`envs, local
      ensures envs == PatchStatus(old(envs), key, old(local.env).status, NotReady(old(local.env), reason, message), accepted)
      ensures local.env == if accepted then envs[key]
                           else old(local.env).(status := NotReady(old(local.env), reason, message))
    {
      var base := local.env.status;
      local.SetReady(False, reason, message);
      PatchStatusOf(key, local, base, accepted);
    }

    /** From the slot on: markRealizing, Realize, restartConsumers, the final patch. */
    method Realise(key: Key, local: LocalEnv, resolved: Manifest, w: World) returns (outcome: Outcome, asked: RealizeRequest)
      requires key in envs && local.env == envs[key]
      requires AllResolve(key.ns, w.catalogs, envs[key].spec.manifest)
      requires resolved == ResolvedManifest(key.ns, w.catalogs, envs[key].spec.manifest)
      modifies this`envs, local, consumers
      ensures AsksFor(asked, key, old(envs)[key], resolved)
      ensures Result(envs, consumers.stored, outcome)
              == AfterSlot(node, old(envs), old(consumers.stored), key, w.realize(asked), w)
              == AfterRealize(node, old(envs), old(consumers.stored), key, w)
    {
      var env := local.env;
      MarkNotReady(key, local, REALIZING, "realising the env closure on " + node, w.first);
      RequestAsksFor(key, env, resolved);
      asked := RequestFor(key, env, resolved);
      var realized := w.realize(asked);
      if realized.None? {
        MarkNotReady(key, local, REALIZE_FAILED, "realize failed", w.last);
        return Error, asked;
      }
      outcome := RollAndCommit(key, local, env, realized.value, w);
    }

    /** restartConsumers when the lock is new, then the final patch. */
    method RollAndCommit(key: Key, local: LocalEnv, env: FloxEnv, result: RealizeResult, w: World) returns (outcome: Outcome)
      requires key in envs
      modifies this`envs, local, consumers
      ensures Result(envs, consumers.stored, outcome)
              == AfterBuild(node, old(envs), old(consumers.stored), key, env, old(local.env), result, w)
    {
      if result.lock != "" && result.lock != env.status.lock {
        var rolled := consumers.RestartConsumers(
          w.deployments, w.daemonSets, w.statefulSets, Coordinate(key, local.env), w.digest(result.lock), w.accepts);
        if !rolled {
          MarkNotReady(key, local, RESTART_CONSUMERS_FAILED, "restart failed", w.last);
          return Error;
        }
      }
      var view := local.env;
      if result.lock != "" {
        local.env := local.env.(status := local.env.status.(lock := result.lock));
      }
      local.env := local.env.(status := local.env.status.(relockToken := env.relock));
      local.UpsertRealization(
        NodeRealization(node, true, result.storePath, result.envPath, result.gcrootPath, local.env.generation));
      local.SetReady(True, REALIZED, "realized on " + node + " at " + result.storePath);
      assert local.env.status == CommittedStatus(node, env, view, result);
      PatchStatusOf(key, local, view.status, w.last);
      outcome := if w.last then Done else Error;
    }

    /** Reconcile, run undisturbed. The stored objects and the result are those of AfterReconcile, the slot
        is returned on every path, a full channel gives none, and a manifest that is waiting or failing
        reports an obstacle it has and never reaches the provisioner. */
    method Reconcile(key: Key, w: World) returns (outcome: Outcome, refusal: Refusal)
      requires w.slot ==> occupied < capacity
      modifies this, consumers
      ensures Result(envs, consumers.stored, outcome) == AfterReconcile(node, old(envs), old(consumers.stored), key, refusal, w)
      ensures occupied == old(occupied) && IsRefusal(refusal.reason)
      ensures key in old(envs) && w.decodes && !AllResolve(key.ns, w.catalogs, old(envs)[key].spec.manifest)
              && old(envs)[key].status.ready.Some? && !AlreadyRealized(node, old(envs)[key]) ==>
                Reports(refusal.reason, key.ns, w.catalogs, old(envs)[key].spec.manifest)
    {
      refusal := Refusal(SERIALIZE_FAILED, "");
      if key !in envs {
        return Done, refusal;
      }
      var local := new LocalEnv(envs[key]);
      if local.env.status.ready.None? {
        MarkNotReady(key, local, PENDING, "queued for realisation", w.first);
        return if w.first then Requeue else Error, refusal;
      }
      var already := IsAlreadyRealized(local.env);
      if already {
        return Done, refusal;
      }
      if !w.decodes {
        refusal := Refusal(SERIALIZE_FAILED, "unmarshal spec.manifest");
        MarkNotReady(key, local, refusal.reason, refusal.message, w.first);
        return Error, refusal;
      }
      var resolution, resolved := ResolveFlakeInstalls(key.ns, w.catalogs, local.env.spec.manifest);
      if resolution.Failed? {
        refusal := Refusal(FLAKE_RESOLVE_FAILED, "install." + resolution.id);
        MarkNotReady(key, local, refusal.reason, refusal.message, w.first);
        return Error, refusal;
      }
      if resolution.Waiting? {
        refusal := Refusal(WAITING_FOR_FLAKE, "referenced FloxCatalog has not resolved an artifact yet");
        MarkNotReady(key, local, refusal.reason, refusal.message, w.first);
        return RequeueAfter(15), refusal;
      }
      if !w.encodes(WithSchemaVersion(resolved)) {
        refusal := Refusal(SERIALIZE_FAILED, "marshal manifest.toml");
        MarkNotReady(key, local, refusal.reason, refusal.message, w.first);
        return Error, refusal;
      }
      var unmet := UnmetDeps(key, local.env);
      if unmet != [] {
        MarkNotReady(key, local, WAITING_FOR_DEPS, "waiting for FloxEnvs to be Ready: " + Joined(unmet), w.first);
        return RequeueAfter(10), refusal;
      }
      if !w.slot {
        return Error, refusal;
      }
      occupied := occupied + 1;
      var asked;
      outcome, asked := Realise(key, local, resolved, w);
      occupied := occupied - 1;
    }
  }
}

/** internal/controller/floxcatalog_controller.go: what one pass of the catalog reconciler writes. */
module CatalogReconcile {
  import opened FloxApi
  import opened FlakeInstalls
  import opened CatalogRollup

  /** What the pass learns of its source: the Get's error, or the artifact's URL and revision ("" when
      absent) with the outcome of rewriting the URL's host for the node. */
  datatype Source =
    | Missing(error: string)
    | Artifact(url: string, revision: string, reachable: Reachable)

  datatype Reachable = At(url: string) | Unresolvable(error: string)

  datatype CatalogStatus = CatalogStatus(
    ready: Option<Condition>, revision: string, artifactURL: string, flakeRef: string, rollup: Rollup)

  /** Why the source yields no reference, as the reason of Ready=False. */
  function Obstacle(source: Source): Option<string> {
    if source.Missing? then Some("SourceNotFound")
    else if source.url == "" then Some("ArtifactNotReady")
    else if source.reachable.Unresolvable? then Some("ArtifactURLUnresolvable")
    else None
  }

  // ---------- the relock stamps ----------

  /** An env as propagateRelock's List returned it. */
  datatype Listed = Listed(name: string, relock: string)

  predicate NeedsStamp(listed: seq<Listed>, revision: string, name: string) {
    exists x :: x in listed && x.name == name && x.relock != revision
  }

  /** The envs after the listed ones that did not carry the revision were stamped with it. */
  function Stamped(envs: Envs, listed: seq<Listed>, revision: string): Envs {
    map n | n in envs :: if NeedsStamp(listed, revision, n) then envs[n].(relock := revision) else envs[n]
  }

  /** The pass over `listed` got as far as `stop`: nothing before it was refused, and it ended there because
      the list was at its end or its patch was refused. */
  predicate StopsAt(listed: seq<Listed>, revision: string, refused: set<string>, stop: nat) {
    && stop <= |listed|
    && (forall i :: 0 <= i < stop ==> listed[i].relock == revision || listed[i].name !in refused)
    && (stop < |listed| ==> listed[stop].relock != revision && listed[stop].name in refused)
  }

  /** A listing taken of these very envs. */
  ghost predicate ListsEnvs(listed: seq<Listed>, envs: Envs) {
    && (forall x :: x in listed ==> x.name in envs && x.relock == envs[x.name].relock)
    && (forall n :: n in envs ==> Listed(n, envs[n].relock) in listed)
  }

  /** A complete pass over a fresh listing leaves every env at the revision, touches nothing but the
      annotation of those that were not, and has nothing left to do. */
  lemma StampedIsStable(envs: Envs, listed: seq<Listed>, revision: string, again: seq<Listed>)
    requires ListsEnvs(listed, envs) && ListsEnvs(again, Stamped(envs, listed, revision))
    ensures var after := Stamped(envs, listed, revision);
      && after.Keys == envs.Keys
      && (forall n :: n in envs ==> after[n] == envs[n].(relock := revision))
      && (forall n :: n in envs && envs[n].relock == revision ==> after[n] == envs[n])
      && (forall n :: !NeedsStamp(again, revision, n))
      && Stamped(after, again, revision) == after
  {
  }

  lemma StampOneMore(envs: Envs, listed: seq<Listed>, revision: string, i: nat)
    requires i < |listed|
    ensures var x, before := listed[i], Stamped(envs, listed[..i], revision);
      Stamped(envs, listed[..i + 1], revision) ==
      if x.relock != revision && x.name in envs then before[x.name := envs[x.name].(relock := revision)] else before
  {
  }

  /** A catalog and the envs of its namespace, as the API server has them. */
  class FloxCatalog {
    const name: string
    const dir: string
    const sourceNamespace: string  // spec.sourceRef.namespace, or the catalog's own
    const sourceName: string
    const generation: nat
    var status: CatalogStatus
    var envs: Envs

    constructor (name: string, dir: string, sourceNamespace: string, sourceName: string, generation: nat,
                 status: CatalogStatus, envs: Envs)
      ensures this.name == name && this.dir == dir && this.generation == generation
      ensures this.sourceNamespace == sourceNamespace && this.sourceName == sourceName
      ensures this.status == status && this.envs == envs
    {
      this.name, this.dir, this.generation := name, dir, generation;
      this.sourceNamespace, this.sourceName := sourceNamespace, sourceName;
      this.status, this.envs := status, envs;
    }

    /** propagateRelock. `refused` are the envs whose patch fails. */
    method PropagateRelock(revision: string, listing: Option<seq<Listed>>, refused: set<string>) returns (ok: bool)
      requires listing.Some? ==> forall x :: x in listing.value ==> x.name in envs
      modifies this`envs
      ensures revision == "" ==> ok && envs == old(envs)
      ensures revision != "" && listing.None? ==> !ok && envs == old(envs)
      ensures revision != "" && listing.Some? ==>
                exists stop: nat :: StopsAt(listing.value, revision, refused, stop)
                  && envs == Stamped(old(envs), listing.value[..stop], revision) && (ok <==> stop == |listing.value|)
    {
      if revision == "" {
        return true;
      }
      if listing.None? {
        return false;
      }
      var listed := listing.value;
      for i := 0 to |listed|
        invariant envs == Stamped(old(envs), listed[..i], revision)
        invariant forall j :: 0 <= j < i ==> listed[j].relock == revision || listed[j].name !in refused
      {
        StampOneMore(old(envs), listed, revision, i);
        if listed[i].relock != revision {
          if listed[i].name in refused {
            assert StopsAt(listed, revision, refused, i);
            return false;
          }
          envs := envs[listed[i].name := envs[listed[i].name].(relock := revision)];
        }
      }
      assert StopsAt(listed, revision, refused, |listed|);
      ok := true;
    }

    /** notReady: Ready=False and nothing else, by a patch whose failure is ignored. */
    method NotReady(reason: string, message: string, accepted: bool)
      modifies this`status
      ensures status == if accepted then old(status).(ready := Some(Condition(False, reason, message, generation))) else old(status)
    {
      if accepted {
        status := status.(ready := Some(Condition(False, reason, message, generation)));
      }
    }

    /** Reconcile. A source that yields no reference leaves the last good one, and the envs, alone; otherwise
        revision, URL and reference move together, the rollup is taken, and the revision is propagated only
        once the status carries it. */
    method Reconcile(source: Source, order: Option<seq<string>>, accepted: bool, listing: Option<seq<Listed>>, refused: set<string>)
      returns (ok: bool)
      requires order.Some? ==> IsListing(order.value, envs)
      requires listing.Some? ==> forall x :: x in listing.value ==> x.name in envs
      modifies this`status, this`envs
      ensures ok ==> Obstacle(source).None? && accepted
      ensures ok && source.revision != "" ==> listing.Some? && envs == Stamped(old(envs), listing.value, source.revision)
      ensures Obstacle(source).None? && (source.revision == "" || listing.None?) ==> envs == old(envs)
      ensures Obstacle(source).None? && accepted && source.revision != "" && listing.Some? ==>
                exists stop: nat :: StopsAt(listing.value, source.revision, refused, stop)
                  && envs == Stamped(old(envs), listing.value[..stop], source.revision) && (ok <==> stop == |listing.value|)
      ensures Obstacle(source).Some? ==>
                && !ok && envs == old(envs)
                && status.(ready := None) == old(status).(ready := None)
                && (accepted ==> status.ready.Some? && status.ready.value.status == False
                                 && status.ready.value.reason == Obstacle(source).value)
      ensures Obstacle(source).Some? && accepted ==>
                status.ready.value.reason
                == if source.Missing? then "SourceNotFound" else if source.url == "" then "ArtifactNotReady" else "ArtifactURLUnresolvable"
      ensures Obstacle(source).None? <==> source.Artifact? && source.url != "" && source.reachable.At?
      ensures Obstacle(source).None? && !accepted ==> !ok && status == old(status) && envs == old(envs)
      ensures Obstacle(source).None? && accepted ==>
                status == CatalogStatus(
                  Some(Condition(True, "Resolved", "resolved from GitRepository " + sourceName + " at " + source.revision, generation)),
                  source.revision, source.url, FlakeRef(source.reachable.url, dir),
                  if order.None? then BLANK else RollupOf(order.value, old(envs)))
    {
      if source.Missing? {
        NotReady("SourceNotFound", source.error, accepted);
        return false;
      }
      if source.url == "" {
        NotReady("ArtifactNotReady", "GitRepository " + sourceNamespace + "/" + sourceName + " has no status.artifact.url yet", accepted);
        return false;
      }
      if source.reachable.Unresolvable? {
        NotReady("ArtifactURLUnresolvable", source.reachable.error, accepted);
        return false;
      }
      var flakeRef := "tarball+" + source.reachable.url;
      if dir != "" {
        flakeRef := flakeRef + "?dir=" + dir;
      }
      var rollup := EnvsRollup(order, envs);
      if !accepted {
        return false;
      }
      assert flakeRef == FlakeRef(source.reachable.url, dir);
      status := CatalogStatus(
        Some(Condition(True, "Resolved", "resolved from GitRepository " + sourceName + " at " + source.revision, generation)),
        source.revision, source.url, flakeRef, rollup);
      ok := PropagateRelock(source.revision, listing, refused);
      if ok && source.revision != "" {
        assert listing.value[..|listing.value|] == listing.value;
      }
    }
  }
}

/** Which gated pods an env event wakes (internal/controller/podgate_controller.go), and when that is enough.
    `envs` and `gated` stand for the controller's cache: an event is handled after the cache holds it. */
module GateWakeups {
  import opened FloxApi
  import opened EnvRefs
  import opened PodGate

  type Cluster = map<Key, FloxEnv>

  ghost predicate UniqueCoordinates(envs: Cluster) {
    forall a, b :: a in envs && b in envs && a != b ==> Coordinate(a, envs[a]) != Coordinate(b, envs[b])
  }

  /** A listing of the cluster, in any order. */
  ghost predicate Enumerates(listing: seq<NamedEnv>, envs: Cluster) {
    && (forall x :: x in listing ==> x.key in envs && envs[x.key] == x.env)
    && (forall k :: k in envs ==> NamedEnv(k, envs[k]) in listing)
  }

  /** Some env with this coordinate is realised on the node at its current generation. */
  ghost predicate ReadyOn(envs: Cluster, ref: EnvRef, node: string) {
    exists k :: k in envs && Coordinate(k, envs[k]) == ref && node in ReadyNodes(envs[k])
  }

  ghost predicate EligibleNode(envs: Cluster, annotations: Annotations, node: string) {
    forall ref :: ref in RefSet(annotations) ==> ReadyOn(envs, ref, node)
  }

  /** What the cluster allows, without listings, order or early exits. */
  ghost predicate Releases(envs: Cluster, annotations: Annotations) {
    RefSet(annotations) == {} || exists node :: EligibleNode(envs, annotations, node)
  }

  // ---------- listings ----------

  lemma {:induction false} FindEnvFinds(listing: seq<NamedEnv>, target: EnvRef)
    ensures match FindEnv(listing, target)
            case None => forall x :: x in listing ==> Coordinate(x.key, x.env) != target
            case Some(x) => x in listing && Coordinate(x.key, x.env) == target
  {
    if listing != [] {
      assert listing == [listing[0]] + listing[1..];
      FindEnvFinds(listing[1..], target);
    }
  }

  lemma {:induction false} ListingExists(envs: Cluster, keys: set<Key>) returns (listing: seq<NamedEnv>)
    requires keys <= envs.Keys
    ensures forall x :: x in listing ==> x.key in keys && envs[x.key] == x.env
    ensures forall k :: k in keys ==> NamedEnv(k, envs[k]) in listing
    decreases |keys|
  {
    if keys == {} {
      listing := [];
    } else {
      var k :| k in keys;
      var rest := ListingExists(envs, keys - {k});
      listing := [NamedEnv(k, envs[k])] + rest;
    }
  }

  /** A List may return any env first. */
  lemma ListingWithFirst(envs: Cluster, k: Key) returns (listing: seq<NamedEnv>)
    requires k in envs
    ensures Enumerates(listing, envs) && listing != [] && listing[0] == NamedEnv(k, envs[k])
  {
    var rest := ListingExists(envs, envs.Keys);
    listing := [NamedEnv(k, envs[k])] + rest;
  }

  /** Envs that share a coordinate, if any, are ready on the same nodes. */
  ghost predicate TwinsAgree(envs: Cluster, target: EnvRef) {
    forall a, b :: a in envs && b in envs && Coordinate(a, envs[a]) == target && Coordinate(b, envs[b]) == target ==>
      ReadyNodes(envs[a]) == ReadyNodes(envs[b])
  }

  /** The first match of every listing shows just where the coordinate is ready. */
  ghost predicate AnyListingTells(envs: Cluster, target: EnvRef) {
    forall listing, node :: Enumerates(listing, envs) ==> Tells(envs, target, listing, node)
  }

  ghost predicate Tells(envs: Cluster, target: EnvRef, listing: seq<NamedEnv>, node: string) {
    ReadyOn(envs, target, node) <==> FindEnv(listing, target).Some? && node in ReadyNodes(FindEnv(listing, target).value.env)
  }

  lemma AgreeingTwinsTell(envs: Cluster, target: EnvRef, listing: seq<NamedEnv>, node: string)
    requires TwinsAgree(envs, target) && Enumerates(listing, envs)
    ensures Tells(envs, target, listing, node)
  {
    FindEnvFinds(listing, target);
    assert forall k :: k in envs ==> NamedEnv(k, envs[k]) in listing;
  }

  /** Taking the first match is right exactly when twins agree; with unique coordinates there are none. */
  lemma FirstMatchIsRightIffTwinsAgree(envs: Cluster, target: EnvRef)
    ensures AnyListingTells(envs, target) <==> TwinsAgree(envs, target)
    ensures UniqueCoordinates(envs) ==> TwinsAgree(envs, target)
  {
    if TwinsAgree(envs, target) {
      forall listing, node | Enumerates(listing, envs) ensures Tells(envs, target, listing, node) {
        AgreeingTwinsTell(envs, target, listing, node);
      }
    } else {
      var a, b :| a in envs && b in envs && Coordinate(a, envs[a]) == target && Coordinate(b, envs[b]) == target
                  && ReadyNodes(envs[a]) != ReadyNodes(envs[b]);
      var onA := ListingWithFirst(envs, a);
      var onB := ListingWithFirst(envs, b);
      var node :| node in ReadyNodes(envs[a]) + ReadyNodes(envs[b]) && !(node in ReadyNodes(envs[a]) && node in ReadyNodes(envs[b]));
      assert ReadyOn(envs, target, node);
      assert !Tells(envs, target, onA, node) || !Tells(envs, target, onB, node);
    }
  }

  // ---------- the decision ----------

  /** Listings of one cluster, one for each reference. */
  ghost predicate ListsOf(listings: seq<Option<seq<NamedEnv>>>, refs: seq<EnvRef>, envs: Cluster) {
    |listings| == |refs| && forall i :: 0 <= i < |refs| ==> listings[i].Some? && Enumerates(listings[i].value, envs)
  }

  /** A gate reconcile on these listings releases: PodGate.Pod.Reconcile's condition. */
  predicate Released(refs: seq<EnvRef>, listings: seq<Option<seq<NamedEnv>>>)
    requires |listings| == |refs|
  {
    refs == [] || Verdict(refs, listings, |refs|).ReleaseTo?
  }

  lemma ReleasedIsReconcile(refs: seq<EnvRef>, listings: seq<Option<seq<NamedEnv>>>)
    requires |listings| == |refs|
    ensures Released(refs, listings) <==>
            refs == [] || (AllFound(refs, listings) && exists node :: ReadyForAll(refs, listings, node))
  {
    assert refs[..|refs|] == refs && listings[..|refs|] == listings;
    VerdictIsExact(refs, listings, |refs|);
    assert Verdict(refs, listings, |refs|).ListFailed? ==> !AllFound(refs, listings);
  }

  /** What a listing releases to, the cluster allows; whatever twins there are. */
  lemma ReleasedNodeIsEligible(envs: Cluster, annotations: Annotations, refs: seq<EnvRef>, listings: seq<Option<seq<NamedEnv>>>, node: string)
    requires Lists(refs, RefSet(annotations)) && ListsOf(listings, refs, envs)
    requires AllFound(refs, listings) && ReadyForAll(refs, listings, node)
    ensures EligibleNode(envs, annotations, node)
  {
    forall ref | ref in RefSet(annotations) ensures ReadyOn(envs, ref, node) {
      var i :| 0 <= i < |refs| && refs[i] == ref;
      FindEnvFinds(listings[i].value, refs[i]);
      var x := FindEnv(listings[i].value, refs[i]).value;
      assert x.key in envs && node in ReadyNodes(envs[x.key]);
    }
  }

  /** The cluster allows a release iff a reconcile releases on some listings of it. */
  lemma ReleasesIffSomeListing(envs: Cluster, annotations: Annotations, refs: seq<EnvRef>)
    requires Lists(refs, RefSet(annotations))
    ensures Releases(envs, annotations) <==> exists listings :: ListsOf(listings, refs, envs) && Released(refs, listings)
  {
    assert refs == [] <==> RefSet(annotations) == {} by {
      if refs != [] { assert refs[0] in RefSet(annotations); }
    }
    if refs == [] {
      assert ListsOf([], refs, envs) && Released(refs, []);
    } else {
      if Releases(envs, annotations) {
        var node :| EligibleNode(envs, annotations, node);
        var listings := ReleasingListings(envs, refs, node);
        ReleasedIsReconcile(refs, listings);
      }
      if listings :| ListsOf(listings, refs, envs) && Released(refs, listings) {
        ReleasedIsReconcile(refs, listings);
        var node :| ReadyForAll(refs, listings, node);
        ReleasedNodeIsEligible(envs, annotations, refs, listings, node);
      }
    }
  }

  /** A listing on which the coordinate's first match is ready on the node. */
  ghost predicate Shows(envs: Cluster, ref: EnvRef, node: string, listing: seq<NamedEnv>) {
    Enumerates(listing, envs) && FindEnv(listing, ref).Some? && node in ReadyNodes(FindEnv(listing, ref).value.env)
  }

  ghost function ShowingListing(envs: Cluster, ref: EnvRef, node: string): (listing: seq<NamedEnv>)
    requires ReadyOn(envs, ref, node)
    ensures Shows(envs, ref, node, listing)
  {
    assert exists listing :: Shows(envs, ref, node, listing) by {
      var k :| k in envs && Coordinate(k, envs[k]) == ref && node in ReadyNodes(envs[k]);
      var listing := ListingWithFirst(envs, k);
      assert Shows(envs, ref, node, listing);
    }
    var listing :| Shows(envs, ref, node, listing);
    listing
  }

  lemma ReleasingListings(envs: Cluster, refs: seq<EnvRef>, node: string) returns (listings: seq<Option<seq<NamedEnv>>>)
    requires forall r :: r in refs ==> ReadyOn(envs, r, node)
    ensures ListsOf(listings, refs, envs) && AllFound(refs, listings) && ReadyForAll(refs, listings, node)
  {
    listings := seq(|refs|, i requires 0 <= i < |refs| => Some(ShowingListing(envs, refs[i], node)));
    forall i | 0 <= i < |refs| ensures listings[i].Some? && Shows(envs, refs[i], node, listings[i].value) {
    }
  }

  /** If twins agree, every listing decides alike: PodGate.Pod.Reconcile's condition and node set are those of
      the cluster, whatever order the listings come in. */
  lemma DecisionIsReleases(
    envs: Cluster, annotations: Annotations, refs: seq<EnvRef>, listings: seq<Option<seq<NamedEnv>>>)
    requires Lists(refs, RefSet(annotations)) && ListsOf(listings, refs, envs)
    requires forall r :: r in refs ==> TwinsAgree(envs, r)
    ensures Releases(envs, annotations) <==> Released(refs, listings)
    ensures refs != [] && AllFound(refs, listings) ==>
              forall node :: ReadyForAll(refs, listings, node) <==> EligibleNode(envs, annotations, node)
  {
    ReleasesIffSomeListing(envs, annotations, refs);
    ReleasedIsReconcile(refs, listings);
    forall i, node | 0 <= i < |refs| ensures Tells(envs, refs[i], listings[i].value, node) {
      AgreeingTwinsTell(envs, refs[i], listings[i].value, node);
    }
    forall node | EligibleNode(envs, annotations, node)
      ensures AllFound(refs, listings) && ReadyForAll(refs, listings, node)
    {
      forall i | 0 <= i < |refs| ensures FindEnv(listings[i].value, refs[i]).Some? && node in ReadyNodes(FindEnv(listings[i].value, refs[i]).value.env) {
        assert refs[i] in RefSet(annotations) && Tells(envs, refs[i], listings[i].value, node);
      }
    }
    if AllFound(refs, listings) {
      forall node | ReadyForAll(refs, listings, node) ensures EligibleNode(envs, annotations, node) {
        ReleasedNodeIsEligible(envs, annotations, refs, listings, node);
      }
    }
    assert refs == [] <==> RefSet(annotations) == {} by {
      if refs != [] { assert refs[0] in RefSet(annotations); }
    }
  }

  /** A create or update of one env, its folder included, makes a node eligible only for pods that refer
      to the env's new coordinate. */
  lemma OnlyWaitersGain(envs: Cluster, key: Key, env: FloxEnv, annotations: Annotations, node: string)
    requires EligibleNode(envs[key := env], annotations, node) && !EligibleNode(envs, annotations, node)
    ensures Coordinate(key, env) in RefSet(annotations)
  {
  }

  lemma OnlyWaitersAreReleased(envs: Cluster, key: Key, env: FloxEnv, annotations: Annotations)
    requires Releases(envs[key := env], annotations) && !Releases(envs, annotations)
    ensures Coordinate(key, env) in RefSet(annotations)
  {
    var node :| EligibleNode(envs[key := env], annotations, node);
    OnlyWaitersGain(envs, key, env, annotations, node);
  }

  /** A pod that stays gated on every listing before a create or update of one env, and is released on some
      listing after it, refers to the env's new coordinate; whatever twins there are. */
  lemma NoLostWakeUp(envs: Cluster, key: Key, env: FloxEnv, annotations: Annotations, refs: seq<EnvRef>, after: seq<Option<seq<NamedEnv>>>)
    requires Lists(refs, RefSet(annotations)) && ListsOf(after, refs, envs[key := env]) && Released(refs, after)
    requires forall before :: ListsOf(before, refs, envs) ==> !Released(refs, before)
    ensures Coordinate(key, env) in RefSet(annotations)
  {
    assert Releases(envs[key := env], annotations) by { ReleasesIffSomeListing(envs[key := env], annotations, refs); }
    assert !Releases(envs, annotations) by { ReleasesIffSomeListing(envs, annotations, refs); }
    OnlyWaitersAreReleased(envs, key, env, annotations);
  }

  // ---------- gatedPodsForEnv ----------

  datatype ListedPod = ListedPod(id: Key, annotations: Annotations, gates: seq<string>)

  predicate Waits(pod: ListedPod, target: EnvRef) {
    SCHEDULING_GATE in pod.gates && target in RefSet(pod.annotations)
  }

  function Waiters(pods: seq<ListedPod>, target: EnvRef): seq<Key> {
    if pods == [] then []
    else Waiters(pods[..|pods| - 1], target) + if Waits(pods[|pods| - 1], target) then [pods[|pods| - 1].id] else []
  }

  lemma {:induction false} WaitersAreTheGatedReferrers(pods: seq<ListedPod>, target: EnvRef)
    ensures forall id :: id in Waiters(pods, target) <==> exists p :: p in pods && p.id == id && Waits(p, target)
  {
    if pods != [] {
      WaitersAreTheGatedReferrers(pods[..|pods| - 1], target);
      assert pods == pods[..|pods| - 1] + [pods[|pods| - 1]];
    }
  }

  method GatedPodsForEnv(key: Key, env: FloxEnv, pods: seq<ListedPod>) returns (requests: seq<Key>)
    ensures requests == Waiters(pods, Coordinate(key, env))
    ensures forall id :: id in requests <==>
              exists p :: p in pods && p.id == id && "flox.seedmatic.io/env-ready" in p.gates
                          && EnvRef(if env.spec.folder == "" then key.ns else env.spec.folder, key.name) in RefSet(p.annotations)
  {
    var target := Coordinate(key, env);
    requests := [];
    for i := 0 to |pods|
      invariant requests == Waiters(pods[..i], target)
    {
      assert pods[..i + 1][..i] == pods[..i];
      if SCHEDULING_GATE in pods[i].gates {
        var refs := RefsFromAnnotations(pods[i].annotations);
        assert target in refs <==> Waits(pods[i], target);
        var j := 0;
        while j < |refs| && refs[j] != target
          invariant 0 <= j <= |refs| && target !in refs[..j]
        {
          j := j + 1;
        }
        assert j == |refs| ==> target !in refs;
        if j < |refs| {
          requests := requests + [pods[i].id];
        }
      }
    }
    assert pods[..|pods|] == pods;
    WaitersAreTheGatedReferrers(pods, target);
    assert forall p :: p in pods ==> (Waits(p, target) <==> "flox.seedmatic.io/env-ready" in p.gates && target in RefSet(p.annotations));
  }

  // ---------- the whole gate controller ----------

  /** A gate reconcile under way: the annotations it read, their references, how many are resolved, and the
      nodes left. */
  datatype Task = Task(annotations: Annotations, refs: seq<EnvRef>, next: nat, eligible: set<string>)

  /** The envs, the gated pods with their annotations, the gate controller's queue and its reconciles. */
  datatype State = State(envs: Cluster, gated: map<Key, Annotations>, queue: set<Key>, tasks: map<Key, Task>)

  /** An env's handler lists the pods for the new object, and on an update first for the one before it;
      `before` and `listed`: those Lists worked. */
  datatype Event =
    | EnvEvent(key: Key, env: FloxEnv, before: bool, listed: bool)  // create or update
    | EnvGone(key: Key, listed: bool)
    | PodEvent(id: Key, annotations: Annotations)     // a gated pod is created or updated
    | PodGone(id: Key)                                // deleted, or not gated any more
    | Start(id: Key, refs: seq<EnvRef>)
    | Resolve(id: Key, listing: Option<seq<NamedEnv>>)
    | Update(id: Key, accepted: bool)                 // rejected unless the pod is as it was read

  ghost predicate Enabled(s: State, e: Event) {
    match e
    case EnvGone(key, _) => key in s.envs
    case Start(id, refs) =>
      id in s.queue && id !in s.tasks && (id in s.gated ==> StrictlySorted(refs) && Lists(refs, RefSet(s.gated[id])))
    case Resolve(id, listing) =>
      id in s.tasks && s.tasks[id].next < |s.tasks[id].refs| && (listing.Some? ==> Enumerates(listing.value, s.envs))
    case Update(id, accepted) =>
      && id in s.tasks && s.tasks[id].next >= |s.tasks[id].refs|
      && (accepted ==> id in s.gated && s.gated[id] == s.tasks[id].annotations)
    case _ => true
  }

  /** gatedPodsForEnv on the state. */
  function Woken(s: State, key: Key, env: FloxEnv, listed: bool): set<Key> {
    if listed then set id | id in s.gated && Coordinate(key, env) in RefSet(s.gated[id]) else {}
  }

  /** The requests of a create or update. */
  function Requests(s: State, key: Key, env: FloxEnv, before: bool, listed: bool): set<Key> {
    (if key in s.envs then Woken(s, key, s.envs[key], before) else {}) + Woken(s, key, env, listed)
  }

  ghost function Apply(s: State, e: Event): State
    requires Enabled(s, e)
  {
    match e
    case EnvEvent(key, env, before, listed) =>
      s.(envs := s.envs[key := env], queue := s.queue + Requests(s, key, env, before, listed))
    case EnvGone(key, listed) => s.(envs := s.envs - {key}, queue := s.queue + Woken(s, key, s.envs[key], listed))
    case PodEvent(id, annotations) => s.(gated := s.gated[id := annotations], queue := s.queue + {id})
    case PodGone(id) => s.(gated := s.gated - {id})
    case Start(id, refs) =>
      var started := s.(queue := s.queue - {id});
      if id in s.gated then started.(tasks := s.tasks[id := Task(s.gated[id], refs, 0, {})]) else started
    case Resolve(id, listing) =>
      var t := s.tasks[id];
      (match Turn(t.next == 0, t.eligible, listing, t.refs[t.next])
       case ListFailed => s.(tasks := s.tasks - {id}, queue := s.queue + {id})
       case StayGated => s.(tasks := s.tasks - {id})
       case ReleaseTo(left) => s.(tasks := s.tasks[id := t.(next := t.next + 1, eligible := left)]))
    case Update(id, accepted) =>
      var ended := s.(tasks := s.tasks - {id});
      if accepted then ended.(gated := s.gated - {id}) else ended.(queue := s.queue + {id})
  }

  /** A reconcile of the pod is under way and has not excluded the node. */
  predicate Candidate(s: State, id: Key, node: string) {
    id in s.tasks && (s.tasks[id].next == 0 || node in s.tasks[id].eligible)
  }

  /** Every gated pod that is not queued is being reconciled, as it is, with all its eligible nodes left; or
      has none. */
  ghost predicate NobodyForgotten(s: State) {
    forall id :: id in s.gated && id !in s.queue ==>
      && (id in s.tasks ==> s.tasks[id].annotations == s.gated[id] && Lists(s.tasks[id].refs, RefSet(s.gated[id])))
      && forall node :: EligibleNode(s.envs, s.gated[id], node) ==> Candidate(s, id, node)
  }

  /** The pod List for the new object failed, and no other was for its coordinate; it is not retried. */
  predicate ListFailed(s: State, e: Event) {
    e.EnvEvent? && !e.listed &&
    !(e.before && e.key in s.envs && Coordinate(e.key, s.envs[e.key]) == Coordinate(e.key, e.env))
  }

  /** The handler's Lists work, and where a reconcile takes the first match, twins agree. */
  ghost predicate Ordinary(s: State, e: Event) {
    && !ListFailed(s, e)
    && (e.Resolve? && e.id in s.tasks && s.tasks[e.id].next < |s.tasks[e.id].refs| ==>
          TwinsAgree(s.envs, s.tasks[e.id].refs[s.tasks[e.id].next]))
  }

  ghost predicate Runs(s: State, es: seq<Event>, t: State)
    decreases |es|
  {
    if es == [] then s == t
    else Enabled(s, es[0]) && Ordinary(s, es[0]) && Runs(Apply(s, es[0]), es[1..], t)
  }

  lemma EnvEventForgetsNobody(s: State, e: Event)
    requires NobodyForgotten(s) && Enabled(s, e) && ((e.EnvEvent? && !ListFailed(s, e)) || e.EnvGone?)
    ensures NobodyForgotten(Apply(s, e))
  {
    var t := Apply(s, e);
    forall id, node | id in t.gated && id !in t.queue && EligibleNode(t.envs, t.gated[id], node) ensures Candidate(t, id, node) {
      if e.EnvEvent? {
        if !EligibleNode(s.envs, s.gated[id], node) { OnlyWaitersGain(s.envs, e.key, e.env, s.gated[id], node); }
      } else {
        RemovalAddsNobody(s.envs, e.key, s.gated[id], node);
      }
    }
  }

  lemma RemovalAddsNobody(envs: Cluster, key: Key, annotations: Annotations, node: string)
    requires EligibleNode(envs - {key}, annotations, node)
    ensures EligibleNode(envs, annotations, node)
  {
    forall ref | ref in RefSet(annotations) ensures ReadyOn(envs, ref, node) {
      var k :| k in envs - {key} && Coordinate(k, envs[k]) == ref && node in ReadyNodes(envs[k]);
    }
  }

  /** A turn keeps every eligible node, on the cluster it listed. */
  lemma TurnKeepsEligible(envs: Cluster, annotations: Annotations, t: Task, listing: seq<NamedEnv>, node: string)
    requires t.next < |t.refs| && t.refs[t.next] in RefSet(annotations) && Enumerates(listing, envs)
    requires TwinsAgree(envs, t.refs[t.next]) && EligibleNode(envs, annotations, node) && (t.next == 0 || node in t.eligible)
    ensures var turn := Turn(t.next == 0, t.eligible, Some(listing), t.refs[t.next]); turn.ReleaseTo? && node in turn.nodes
  {
    AgreeingTwinsTell(envs, t.refs[t.next], listing, node);
    assert ReadyOn(envs, t.refs[t.next], node);
    var ready := ReadyNodes(FindEnv(listing, t.refs[t.next]).value.env);
    assert node in if t.next == 0 then ready else t.eligible * ready;
  }

  lemma ResolveForgetsNobody(s: State, e: Event)
    requires NobodyForgotten(s) && Enabled(s, e) && Ordinary(s, e) && e.Resolve?
    ensures NobodyForgotten(Apply(s, e))
  {
    var t, task := Apply(s, e), s.tasks[e.id];
    forall id, node | id in t.gated && id !in t.queue && EligibleNode(t.envs, t.gated[id], node) ensures Candidate(t, id, node) {
      if id == e.id && e.listing.Some? {
        assert task.refs[task.next] in task.refs;
        TurnKeepsEligible(s.envs, s.gated[id], task, e.listing.value, node);
      }
    }
  }

  lemma StepForgetsNobody(s: State, e: Event)
    requires NobodyForgotten(s) && Enabled(s, e) && Ordinary(s, e)
    ensures NobodyForgotten(Apply(s, e))
  {
    match e
    case EnvEvent(_, _, _, _) => EnvEventForgetsNobody(s, e);
    case EnvGone(_, _) => EnvEventForgetsNobody(s, e);
    case Resolve(_, _) => ResolveForgetsNobody(s, e);
    case _ =>
  }

  /** At rest every gated pod is rightly gated: the cluster allows none of them, and no listing of it, first
      matches of twins included, would release one. */
  lemma AtRestNobodyIsReleasable(s: State)
    requires NobodyForgotten(s) && s.queue == {} && s.tasks == map[]
    ensures forall id :: id in s.gated ==> !Releases(s.envs, s.gated[id])
    ensures forall id, refs, listings :: id in s.gated && Lists(refs, RefSet(s.gated[id])) && ListsOf(listings, refs, s.envs) ==>
              !Released(refs, listings)
  {
    forall id | id in s.gated ensures !Releases(s.envs, s.gated[id]) {
      assert RefSet(s.gated[id]) == {} ==> EligibleNode(s.envs, s.gated[id], "");
    }
    forall id, refs, listings | id in s.gated && Lists(refs, RefSet(s.gated[id])) && ListsOf(listings, refs, s.envs)
      ensures !Released(refs, listings)
    {
      ReleasesIffSomeListing(s.envs, s.gated[id], refs);
    }
  }

  /** Over every run, with env and pod events falling between any two steps of a reconcile, no gated pod that
      could be released is forgotten; so with nothing queued or in flight every gated pod is rightly gated. */
  lemma {:induction false} NoWakeUpIsLost(s: State, es: seq<Event>, t: State)
    requires NobodyForgotten(s) && Runs(s, es, t)
    ensures NobodyForgotten(t)
    ensures t.queue == {} && t.tasks == map[] ==>
              forall id, refs, listings :: id in t.gated && Lists(refs, RefSet(t.gated[id])) && ListsOf(listings, refs, t.envs) ==>
                !Released(refs, listings)
    decreases |es|
  {
    if es != [] {
      StepForgetsNobody(s, es[0]);
      NoWakeUpIsLost(Apply(s, es[0]), es[1..], t);
    } else if t.queue == {} && t.tasks == map[] {
      AtRestNobodyIsReleasable(t);
    }
  }

  /** One container opting into one env. */
  function OptIn(container: string, ref: EnvRef): Annotations {
    map[ANNOTATION_PREFIX + container := PrintRef(ref)]
  }

  lemma OptInRefersTo(container: string, ref: EnvRef)
    requires '/' !in ref.name
    ensures RefSet(OptIn(container, ref)) == {ref}
  {
    RefRoundTrip(ref, PrintRef(ref));
    var k := ANNOTATION_PREFIX + container;
    assert OptsIn(k, PrintRef(ref));
    assert k in OptIn(container, ref);
  }

  /** The condition on twins is needed: of two envs with one coordinate, one ready and one not, a List may show
      the other first, and a waiting pod stays gated with nothing queued. */
  lemma TwinsForgetAPod(envs: Cluster, a: Key, b: Key, ref: EnvRef, node: string, pod: Key) returns (s: State, started: Event, resolved: Event)
    requires a in envs && b in envs && Coordinate(a, envs[a]) == ref && Coordinate(b, envs[b]) == ref && '/' !in ref.name
    requires node in ReadyNodes(envs[a]) && ReadyNodes(envs[b]) == {}
    ensures NobodyForgotten(s) && s.envs == envs && s.tasks == map[]
    ensures Enabled(s, started) && Enabled(Apply(s, started), resolved)
    ensures var t := Apply(Apply(s, started), resolved);
      t.queue == {} && t.tasks == map[] && pod in t.gated && Releases(t.envs, t.gated[pod]) && !NobodyForgotten(t)
  {
    var annotations := OptIn("c", ref);
    OptInRefersTo("c", ref);
    s := State(envs, map[pod := annotations], {pod}, map[]);
    started := Start(pod, [ref]);
    var listing := ListingWithFirst(envs, b);
    resolved := Resolve(pod, Some(listing));
    assert ReadyOn(envs, ref, node);
    assert EligibleNode(envs, annotations, node);
    assert Apply(Apply(s, started), resolved).tasks == map[];
  }

  // ---------- a failed List ----------

  /** The env makes this node eligible for a pod that waits for it: it is ready there, and the pod's other
      references are, without it. */
  ghost predicate MakesEligible(envs: Cluster, key: Key, env: FloxEnv, annotations: Annotations, node: string) {
    && Coordinate(key, env) in RefSet(annotations) && node in ReadyNodes(env)
    && forall ref :: ref in RefSet(annotations) && ref != Coordinate(key, env) ==> ReadyOn(envs - {key}, ref, node)
  }

  lemma GainIsMadeByTheEnv(envs: Cluster, key: Key, env: FloxEnv, annotations: Annotations, node: string)
    ensures MakesEligible(envs, key, env, annotations, node) ==> EligibleNode(envs[key := env], annotations, node)
    ensures EligibleNode(envs[key := env], annotations, node) && !EligibleNode(envs, annotations, node) ==>
              MakesEligible(envs, key, env, annotations, node)
  {
    var after := envs[key := env];
    if MakesEligible(envs, key, env, annotations, node) {
      forall ref | ref in RefSet(annotations) ensures ReadyOn(after, ref, node) {
        if ref == Coordinate(key, env) {
          assert after[key] == env;
        } else {
          var k :| k in envs - {key} && Coordinate(k, envs[k]) == ref && node in ReadyNodes(envs[k]);
          assert after[k] == envs[k];
        }
      }
    }
    if EligibleNode(after, annotations, node) && !EligibleNode(envs, annotations, node) {
      OnlyWaitersGain(envs, key, env, annotations, node);
      forall ref | ref in RefSet(annotations) && (ref != Coordinate(key, env) || node !in ReadyNodes(env))
        ensures ReadyOn(envs - {key}, ref, node) && ReadyOn(envs, ref, node)
      {
        var k :| k in after && Coordinate(k, after[k]) == ref && node in ReadyNodes(after[k]);
        assert k != key && (envs - {key})[k] == envs[k] == after[k];
      }
    }
  }

  /** What an env's event costs, exactly, whichever of its pod Lists failed: it forgets a pod iff some gated pod,
      neither queued nor requested, waits for the env on a node where the env is ready and its other references
      are, unless the pod's own reconcile still has that node. */
  lemma FailedListForgets(s: State, e: Event)
    requires NobodyForgotten(s) && e.EnvEvent?
    ensures !NobodyForgotten(Apply(s, e)) <==>
            exists id, node :: id in s.gated && id !in s.queue && id !in Requests(s, e.key, e.env, e.before, e.listed)
                               && MakesEligible(s.envs, e.key, e.env, s.gated[id], node) && !Candidate(s, id, node)
    ensures !NobodyForgotten(Apply(s, e)) ==> ListFailed(s, e)
  {
    var t := Apply(s, e);
    forall id, node | id in s.gated
      ensures MakesEligible(s.envs, e.key, e.env, s.gated[id], node) ==> EligibleNode(t.envs, s.gated[id], node)
      ensures EligibleNode(t.envs, s.gated[id], node) && !EligibleNode(s.envs, s.gated[id], node) ==>
                MakesEligible(s.envs, e.key, e.env, s.gated[id], node)
    {
      GainIsMadeByTheEnv(s.envs, e.key, e.env, s.gated[id], node);
    }
    assert forall id, node :: Candidate(t, id, node) == Candidate(s, id, node);
    if !ListFailed(s, e) { EnvEventForgetsNobody(s, e); }
  }

  /** And it does happen: one pod waits for one env, the event is the env's realisation, and its Lists fail.
      The pod is left gated with nothing queued. */
  lemma FailedListLeavesAPodGated(env: FloxEnv, pod: Key, key: Key, entry: NodeRealization) returns (s: State, e: Event)
    requires env.status.realized == [entry] && entry.ready && entry.observed == env.generation && '/' !in key.name
    ensures NobodyForgotten(s) && ListFailed(s, e) && s.queue == {} && s.tasks == map[] && key in s.envs && e.key == key && e.env == env
    ensures Apply(s, e).queue == {} && !NobodyForgotten(Apply(s, e))
  {
    var ref := Coordinate(key, env);
    var annotations := OptIn("c", ref);
    OptInRefersTo("c", ref);
    var unrealised := env.(status := env.status.(realized := []));
    s := State(map[key := unrealised], map[pod := annotations], {}, map[]);
    e := EnvEvent(key, env, false, false);
    assert ref in RefSet(annotations);
    forall node ensures !EligibleNode(s.envs, annotations, node) { assert !ReadyOn(s.envs, ref, node); }
    assert entry in env.status.realized && entry.node in ReadyNodes(env);
    assert MakesEligible(s.envs, key, env, annotations, entry.node);
    assert pod in s.gated && pod !in s.queue && !Candidate(s, pod, entry.node);
    FailedListForgets(s, e);
  }
}

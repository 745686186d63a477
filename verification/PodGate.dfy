/** internal/controller/podgate_controller.go: when a gated pod is released, and where it may then run. */
module PodGate {
  import opened FloxApi
  import opened EnvRefs

  const HOSTNAME := "kubernetes.io/hostname"
  const NODE_NAME := "metadata.name"

  datatype Operator = In | NotIn | Exists | DoesNotExist | Gt | Lt

  datatype Requirement = Requirement(key: string, op: Operator, values: seq<string>)

  /** A node-selector term: all its expressions over labels and over node fields must hold. */
  datatype Term = Term(expressions: seq<Requirement>, fields: seq<Requirement>)

  /** A node as the scheduler sees it. `compare` stands for the numeric operators. */
  datatype Node = Node(name: string, labels: map<string, string>, compare: (Requirement, string) -> bool)

  /** Required node affinity: absent, or a list of terms of which one must match. */
  type Selector = Option<seq<Term>>

  predicate RequirementMatches(r: Requirement, labels: map<string, string>, compare: (Requirement, string) -> bool) {
    match r.op
    case In => r.key in labels && labels[r.key] in r.values
    case NotIn => !(r.key in labels && labels[r.key] in r.values)
    case Exists => r.key in labels
    case DoesNotExist => r.key !in labels
    case _ => r.key in labels && compare(r, labels[r.key])
  }

  predicate IsEmptyTerm(t: Term) { t.expressions == [] && t.fields == [] }

  /** An empty term matches no node. */
  predicate TermMatches(t: Term, node: Node) {
    && !IsEmptyTerm(t)
    && (forall r :: r in t.expressions ==> RequirementMatches(r, node.labels, node.compare))
    && (forall r :: r in t.fields ==> RequirementMatches(r, map[NODE_NAME := node.name], node.compare))
  }

  predicate SelectorMatches(selector: Selector, node: Node) {
    selector.Some? ==> exists t :: t in selector.value && TermMatches(t, node)
  }

  // ---------- narrowing ----------

  function HostnameIn(nodes: seq<string>): Requirement { Requirement(HOSTNAME, In, nodes) }

  function NarrowTerm(t: Term, req: Requirement): Term {
    if req in t.expressions then t else Term(t.expressions + [req], t.fields)
  }

  predicate HasNoTerms(selector: Selector) { selector.None? || selector.value == [] }

  function Narrowed(selector: Selector, nodes: seq<string>): Selector {
    if HasNoTerms(selector) then Some([Term([HostnameIn(nodes)], [])])
    else Some(seq(|selector.value|, i requires 0 <= i < |selector.value| => NarrowTerm(selector.value[i], HostnameIn(nodes))))
  }

  predicate HostIn(node: Node, nodes: seq<string>) {
    HOSTNAME in node.labels && node.labels[HOSTNAME] in nodes
  }

  predicate HasEmptyTerm(selector: Selector) {
    selector.Some? && exists t :: t in selector.value && IsEmptyTerm(t)
  }

  lemma NarrowedTermMatches(t: Term, nodes: seq<string>, node: Node)
    ensures TermMatches(NarrowTerm(t, HostnameIn(nodes)), node)
            <==> HostIn(node, nodes) && (TermMatches(t, node) || IsEmptyTerm(t))
  {
    var req := HostnameIn(nodes);
    assert RequirementMatches(req, node.labels, node.compare) <==> HostIn(node, nodes);
    var t' := NarrowTerm(t, req);
    assert req in t'.expressions;
    assert forall r :: r in t'.expressions <==> r in t.expressions || r == req;
  }

  /** Where a narrowed pod may run, exactly: on the nodes it was narrowed to that matched before, or on all
      of those nodes if it had no terms, or an empty one. An empty term matched nothing; with the
      requirement added it does, so an empty term is the one case in which narrowing widens. */
  lemma NarrowingIsExact(selector: Selector, nodes: seq<string>, node: Node)
    ensures SelectorMatches(Narrowed(selector, nodes), node)
            <==> HostIn(node, nodes) && (SelectorMatches(selector, node) || HasNoTerms(selector) || HasEmptyTerm(selector))
  {
    if HasNoTerms(selector) {
      var t := Term([HostnameIn(nodes)], []);
      assert Narrowed(selector, nodes).value == [t];
      assert TermMatches(t, node) <==> HostIn(node, nodes) by {
        assert HostnameIn(nodes) in t.expressions;
      }
      assert t in Narrowed(selector, nodes).value;
    } else {
      var before, after := selector.value, Narrowed(selector, nodes).value;
      forall i | 0 <= i < |before|
        ensures TermMatches(after[i], node) <==> HostIn(node, nodes) && (TermMatches(before[i], node) || IsEmptyTerm(before[i]))
      {
        NarrowedTermMatches(before[i], nodes, node);
      }
      if t :| t in before && (TermMatches(t, node) || IsEmptyTerm(t)) {
        var i :| 0 <= i < |before| && before[i] == t;
        assert after[i] in after;
      }
      if t :| t in after && TermMatches(t, node) {
        var i :| 0 <= i < |after| && after[i] == t;
        assert before[i] in before;
      }
    }
  }

  /** Without empty terms narrowing only tightens, and is the conjunction it is meant to be. */
  lemma NarrowingTightens(selector: Selector, nodes: seq<string>, node: Node)
    requires !HasEmptyTerm(selector)
    ensures SelectorMatches(Narrowed(selector, nodes), node)
            <==> HostIn(node, nodes) && (SelectorMatches(selector, node) || HasNoTerms(selector))
  {
    NarrowingIsExact(selector, nodes, node);
  }

  /** The label a narrowed pod is held to, when nothing else was asked of its node. */
  lemma NarrowsByHostname(nodes: seq<string>, node: Node)
    ensures SelectorMatches(Narrowed(None, nodes), node)
            <==> "kubernetes.io/hostname" in node.labels && node.labels["kubernetes.io/hostname"] in nodes
  {
    NarrowingIsExact(None, nodes, node);
  }

  /** As tightening a gated pod requires (KEP-3521), no existing term loses or reorders a requirement, and
      the new selector has no empty term. */
  lemma NarrowingOnlyAdds(selector: Selector, nodes: seq<string>)
    ensures var after := Narrowed(selector, nodes);
      && after.Some? && after.value != [] && !HasEmptyTerm(after)
      && (!HasNoTerms(selector) ==>
            && |after.value| == |selector.value|
            && forall i :: 0 <= i < |after.value| ==>
                 && selector.value[i].expressions <= after.value[i].expressions
                 && after.value[i].fields == selector.value[i].fields)
  {
  }

  /** Narrowing again to the same nodes in another order changes no match. */
  lemma NarrowingAgainChangesNothing(selector: Selector, nodes: seq<string>, again: seq<string>, node: Node)
    requires forall n :: n in nodes <==> n in again
    ensures SelectorMatches(Narrowed(Narrowed(selector, nodes), again), node)
            <==> SelectorMatches(Narrowed(selector, nodes), node)
  {
    NarrowingOnlyAdds(selector, nodes);
    NarrowingIsExact(selector, nodes, node);
    NarrowingIsExact(Narrowed(selector, nodes), again, node);
  }

  /** In the order it was narrowed by before, narrowing leaves the selector as it is: no requirement is added twice. */
  lemma NarrowingTwiceIsOnce(selector: Selector, nodes: seq<string>)
    ensures Narrowed(Narrowed(selector, nodes), nodes) == Narrowed(selector, nodes)
  {
    var once := Narrowed(selector, nodes).value;
    forall i | 0 <= i < |once| ensures NarrowTerm(once[i], HostnameIn(nodes)) == once[i] {
      if HasNoTerms(selector) {
        assert once[i].expressions == [HostnameIn(nodes)];
      } else {
        var t := selector.value[i];
        assert HostnameIn(nodes) !in t.expressions ==> once[i].expressions[|t.expressions|] == HostnameIn(nodes);
      }
    }
    assert Narrowed(Narrowed(selector, nodes), nodes).value == once;
  }

  // ---------- the gate list ----------

  function WithoutGate(gates: seq<string>): seq<string> {
    if gates == [] then []
    else if gates[0] == SCHEDULING_GATE then WithoutGate(gates[1..])
    else [gates[0]] + WithoutGate(gates[1..])
  }

  predicate HasGate(gates: seq<string>) { SCHEDULING_GATE in gates }

  lemma {:induction false} WithoutGateOfConcatenation(a: seq<string>, b: seq<string>)
    ensures WithoutGate(a + b) == WithoutGate(a) + WithoutGate(b)
  {
    if a == [] {
      assert a + b == b;
    } else {
      assert (a + b)[1..] == a[1..] + b;
      WithoutGateOfConcatenation(a[1..], b);
    }
  }

  /** Exactly the env-ready gates go; every other gate stays as often as it was there, in order (see
      WithoutGateOfConcatenation), and a pod without the gate is left as it is. */
  lemma {:induction false} WithoutGateKeepsOthers(gates: seq<string>)
    ensures "flox.seedmatic.io/env-ready" !in WithoutGate(gates) && !HasGate(WithoutGate(gates))
    ensures forall g :: g != "flox.seedmatic.io/env-ready" ==> multiset(WithoutGate(gates))[g] == multiset(gates)[g]
    ensures !HasGate(gates) ==> WithoutGate(gates) == gates
  {
    if gates != [] {
      assert gates == [gates[0]] + gates[1..];
      WithoutGateKeepsOthers(gates[1..]);
    }
  }

  // ---------- the decision ----------

  datatype NamedEnv = NamedEnv(key: Key, env: FloxEnv)

  /** The first env of a listing with the coordinate. */
  function FindEnv(listing: seq<NamedEnv>, target: EnvRef): Option<NamedEnv> {
    if listing == [] then None
    else if Coordinate(listing[0].key, listing[0].env) == target then Some(listing[0])
    else FindEnv(listing[1..], target)
  }

  /** The nodes where the env is realised at its current generation. */
  function ReadyNodes(env: FloxEnv): set<string> {
    set e | e in env.status.realized && e.ready && e.observed == env.generation :: e.node
  }

  /** Every reference resolves in the listing made for it. */
  predicate AllFound(refs: seq<EnvRef>, listings: seq<Option<seq<NamedEnv>>>)
    requires |listings| == |refs|
  {
    forall i :: 0 <= i < |refs| ==> listings[i].Some? && FindEnv(listings[i].value, refs[i]).Some?
  }

  /** n is ready for every reference. */
  ghost predicate ReadyForAll(refs: seq<EnvRef>, listings: seq<Option<seq<NamedEnv>>>, n: string)
    requires |listings| == |refs| && AllFound(refs, listings)
  {
    forall i :: 0 <= i < |refs| ==> n in ReadyNodes(FindEnv(listings[i].value, refs[i]).value.env)
  }

  datatype Decision = StayGated | ListFailed | ReleaseTo(nodes: set<string>)

  /** One turn of the loop: the env of this reference narrows the nodes left, the first one starts them. */
  function Turn(first: bool, eligible: set<string>, listing: Option<seq<NamedEnv>>, ref: EnvRef): Decision {
    match listing
    case None => ListFailed
    case Some(l) =>
      match FindEnv(l, ref)
      case None => StayGated
      case Some(x) =>
        var left := if first then ReadyNodes(x.env) else eligible * ReadyNodes(x.env);
        if left == {} then StayGated else ReleaseTo(left)
  }

  /** The first `count` turns, up to the one that ends the loop. */
  function Verdict(refs: seq<EnvRef>, listings: seq<Option<seq<NamedEnv>>>, count: nat): Decision
    requires |listings| == |refs| && count <= |refs|
  {
    if count == 0 then ReleaseTo({})
    else
      match Verdict(refs, listings, count - 1)
      case ReleaseTo(eligible) => Turn(count == 1, eligible, listings[count - 1], refs[count - 1])
      case other => other
  }

  /** A loop that has ended stays ended. */
  lemma {:induction false} VerdictStands(refs: seq<EnvRef>, listings: seq<Option<seq<NamedEnv>>>, count: nat, more: nat)
    requires |listings| == |refs| && count <= more <= |refs|
    ensures !Verdict(refs, listings, count).ReleaseTo? ==> Verdict(refs, listings, more) == Verdict(refs, listings, count)
    decreases more
  {
    if count < more { VerdictStands(refs, listings, count, more - 1); }
  }

  class Pod {
    var annotations: Annotations
    var gates: array<string>
    var gateCount: nat
    var selector: Selector

    ghost predicate Valid()
      reads this
    {
      gateCount <= gates.Length
    }

    ghost function Gates(): seq<string>
      requires Valid()
      reads this, gates
    {
      gates[..gateCount]
    }

    /** narrowToNodes. */
    method NarrowToNodes(nodes: seq<string>)
      modifies this`selector
      ensures selector == Narrowed(old(selector), nodes)
    {
      var req := Requirement(HOSTNAME, In, nodes);
      if selector.None? || selector.value == [] {
        selector := Some([Term([req], [])]);
        return;
      }
      var terms := selector.value;
      var i := 0;
      while i < |terms|
        invariant 0 <= i <= |terms| == |old(selector).value|
        invariant forall j :: 0 <= j < i ==> terms[j] == NarrowTerm(old(selector).value[j], req)
        invariant forall j :: i <= j < |terms| ==> terms[j] == old(selector).value[j]
      {
        var present := HasRequirement(terms[i].expressions, req);
        if !present {
          terms := terms[i := Term(terms[i].expressions + [req], terms[i].fields)];
        }
        i := i + 1;
      }
      assert terms == Narrowed(old(selector), nodes).value;
      selector := Some(terms);
    }

    /** hasRequirement, with equalStrings as sequence equality. */
    static method HasRequirement(expressions: seq<Requirement>, want: Requirement) returns (found: bool)
      ensures found <==> want in expressions
    {
      for i := 0 to |expressions|
        invariant want !in expressions[..i]
      {
        var e := expressions[i];
        if e.key == want.key && e.op == want.op && e.values == want.values {
          return true;
        }
      }
      return false;
    }

    /** release, up to its update call: narrow when there are nodes to narrow to, then compact the gate
        list over its own backing array. `nodes` is the order the set was listed in. */
    method Release(eligible: set<string>) returns (nodes: seq<string>)
      requires Valid()
      modifies this`selector, this`gateCount, gates
      ensures Valid() && gates == old(gates)
      ensures forall n :: n in nodes <==> n in eligible
      ensures selector == if eligible != {} then Narrowed(old(selector), nodes) else old(selector)
      ensures Gates() == WithoutGate(old(Gates()))
    {
      nodes := [];
      var rest := eligible;
      while rest != {}
        invariant rest <= eligible && forall n :: n in nodes <==> n in eligible - rest
        decreases rest
      {
        var n :| n in rest;
        nodes, rest := nodes + [n], rest - {n};
      }
      if eligible != {} {
        NarrowToNodes(nodes);
      }
      ghost var before := old(Gates());
      var kept := 0;
      var i := 0;
      while i < gateCount
        invariant 0 <= kept <= i <= gateCount == old(gateCount) <= gates.Length
        invariant gates[..kept] == WithoutGate(before[..i])
        invariant forall j :: i <= j < gateCount ==> gates[j] == before[j]
        invariant selector == if eligible != {} then Narrowed(old(selector), nodes) else old(selector)
      {
        assert before[..i + 1] == before[..i] + [before[i]];
        WithoutGateOfConcatenation(before[..i], [before[i]]);
        if gates[i] != SCHEDULING_GATE {
          gates[kept] := gates[i];
          kept := kept + 1;
        }
        i := i + 1;
      }
      assert before[..gateCount] == before;
      gateCount := kept;
    }

    /** Reconcile for a pod the API server returned: nothing for an ungated pod, a plain release for one
        without references, otherwise whatever Decide says. */
    method Reconcile(refs: seq<EnvRef>, listings: seq<Option<seq<NamedEnv>>>) returns (released: bool)
      requires Valid() && |listings| == |refs| && StrictlySorted(refs) && Lists(refs, RefSet(annotations))
      modifies this`selector, this`gateCount, gates
      ensures Valid() && gates == old(gates)
      ensures released <==> HasGate(old(Gates())) && (refs == [] || (AllFound(refs, listings) && exists n :: ReadyForAll(refs, listings, n)))
      ensures !released ==> Gates() == old(Gates()) && selector == old(selector)
      ensures released ==> Gates() == WithoutGate(old(Gates()))
      ensures released && refs == [] ==> selector == old(selector)
      ensures released && refs != [] ==>
                exists nodes :: selector == Narrowed(old(selector), nodes) && forall n :: n in nodes <==> ReadyForAll(refs, listings, n)
    {
      var gated := false;
      for i := 0 to gateCount
        invariant gated <==> SCHEDULING_GATE in gates[..i]
      {
        if gates[i] == SCHEDULING_GATE { gated := true; }
      }
      assert gates[..gateCount] == Gates();
      if !gated {
        return false;
      }
      if |refs| == 0 {
        var _ := Release({});
        return true;
      }
      var decision := Decide(refs, listings);
      if !decision.ReleaseTo? {
        return false;
      }
      var nodes := Release(decision.nodes);
      assert selector == Narrowed(old(selector), nodes) && forall n :: n in nodes <==> ReadyForAll(refs, listings, n);
      released := true;
    }
  }

  /** The env has the target's name, and its folder is the target's; or it has none and its namespace is. */
  predicate Answers(x: NamedEnv, target: EnvRef) {
    && x.key.name == target.name
    && (x.env.spec.folder == "" ==> x.key.ns == target.folder)
    && (x.env.spec.folder != "" ==> x.env.spec.folder == target.folder)
  }

  method ResolveFloxEnv(listing: seq<NamedEnv>, target: EnvRef) returns (found: Option<NamedEnv>)
    ensures found == FindEnv(listing, target)
    ensures found.Some? ==>
              exists i :: 0 <= i < |listing| && listing[i] == found.value && Answers(listing[i], target)
                          && forall j :: 0 <= j < i ==> !Answers(listing[j], target)
    ensures found.None? ==> forall i :: 0 <= i < |listing| ==> !Answers(listing[i], target)
  {
    var i := 0;
    while i < |listing|
      invariant 0 <= i <= |listing| && FindEnv(listing, target) == FindEnv(listing[i..], target)
      invariant forall j :: 0 <= j < i ==> !Answers(listing[j], target)
    {
      if Coordinate(listing[i].key, listing[i].env) == target {
        return Some(listing[i]);
      }
      assert listing[i..][1..] == listing[i + 1..];
      i := i + 1;
    }
    return None;
  }

  method ReadyNodesForEnv(env: FloxEnv) returns (nodes: set<string>)
    ensures nodes == ReadyNodes(env)
    ensures forall n :: n in nodes <==>
              exists i :: 0 <= i < |env.status.realized| && env.status.realized[i].node == n
                          && env.status.realized[i].ready && env.status.realized[i].observed == env.generation
  {
    nodes := {};
    var realized := env.status.realized;
    for i := 0 to |realized|
      invariant nodes == set e | e in realized[..i] && e.ready && e.observed == env.generation :: e.node
    {
      assert realized[..i + 1] == realized[..i] + [realized[i]];
      if realized[i].ready && realized[i].observed == env.generation {
        nodes := nodes + {realized[i].node};
      }
    }
    assert realized[..|realized|] == realized;
  }

  method Intersect(a: set<string>, b: set<string>) returns (out: set<string>)
    ensures out == a * b
  {
    out := {};
    var rest := a;
    while rest != {}
      invariant rest <= a && out == (a - rest) * b
      decreases rest
    {
      var k :| k in rest;
      rest := rest - {k};
      if k in b { out := out + {k}; }
    }
  }

  lemma TurnNarrows(first: bool, eligible: set<string>, listing: Option<seq<NamedEnv>>, ref: EnvRef)
    requires listing.Some? && FindEnv(listing.value, ref).Some?
    ensures var nodes := ReadyNodes(FindEnv(listing.value, ref).value.env);
      match Turn(first, eligible, listing, ref)
      case ReleaseTo(left) => left != {} && forall n :: n in left <==> n in nodes && (first || n in eligible)
      case StayGated => forall n :: !(n in nodes && (first || n in eligible))
      case ListFailed => false
  {
    var nodes := ReadyNodes(FindEnv(listing.value, ref).value.env);
    forall n | n in nodes && !first && n in eligible ensures n in eligible * nodes {
    }
  }

  /** What the loop decides, without its order: it goes on to the end exactly when every reference resolves
      and some node is ready for all of them, to exactly those nodes. */
  lemma {:induction false} VerdictIsExact(refs: seq<EnvRef>, listings: seq<Option<seq<NamedEnv>>>, count: nat)
    requires |listings| == |refs| && count <= |refs|
    ensures var first, lists := refs[..count], listings[..count];
      match Verdict(refs, listings, count)
      case ReleaseTo(nodes) =>
        && AllFound(first, lists)
        && (count > 0 ==> nodes != {} && forall n :: n in nodes <==> ReadyForAll(first, lists, n))
      case StayGated => !AllFound(first, lists) || forall n :: !ReadyForAll(first, lists, n)
      case ListFailed => exists i :: 0 <= i < count && listings[i].None?
  {
    if count > 0 {
      VerdictIsExact(refs, listings, count - 1);
      if listings[count - 1].Some? && FindEnv(listings[count - 1].value, refs[count - 1]).Some? {
        OneMoreReady(refs, listings, count - 1);
        match Verdict(refs, listings, count - 1)
        case ReleaseTo(eligible) => TurnNarrows(count == 1, eligible, listings[count - 1], refs[count - 1]);
        case _ =>
      } else {
        assert listings[..count][count - 1] == listings[count - 1] && refs[..count][count - 1] == refs[count - 1];
        assert !AllFound(refs[..count], listings[..count]);
      }
    }
  }

  lemma OneMoreReady(refs: seq<EnvRef>, listings: seq<Option<seq<NamedEnv>>>, i: nat)
    requires |listings| == |refs| && i < |refs|
    requires listings[i].Some? && FindEnv(listings[i].value, refs[i]).Some?
    ensures AllFound(refs[..i + 1], listings[..i + 1]) <==> AllFound(refs[..i], listings[..i])
    ensures AllFound(refs[..i], listings[..i]) ==> forall n ::
              ReadyForAll(refs[..i + 1], listings[..i + 1], n) <==>
              ReadyForAll(refs[..i], listings[..i], n) && n in ReadyNodes(FindEnv(listings[i].value, refs[i]).value.env)
  {
    assert forall j :: 0 <= j < i ==> refs[..i + 1][j] == refs[..i][j] && listings[..i + 1][j] == listings[..i][j];
    assert refs[..i + 1][i] == refs[i] && listings[..i + 1][i] == listings[i];
  }

  /** The loop over the references: it starts from the first env's ready set, intersects the others into
      it, and stops early. It releases exactly when every reference resolves and some node is ready for
      all of them, to exactly those nodes. */
  method Decide(refs: seq<EnvRef>, listings: seq<Option<seq<NamedEnv>>>) returns (decision: Decision)
    requires refs != [] && |listings| == |refs|
    ensures decision.ReleaseTo? <==> AllFound(refs, listings) && exists n :: ReadyForAll(refs, listings, n)
    ensures decision.ReleaseTo? ==> forall n :: n in decision.nodes <==> ReadyForAll(refs, listings, n)
    ensures decision.ListFailed? ==> exists i :: 0 <= i < |listings| && listings[i].None?
    ensures decision == Verdict(refs, listings, |refs|)
  {
    assert refs[..|refs|] == refs && listings[..|refs|] == listings;
    VerdictIsExact(refs, listings, |refs|);
    var eligible: set<string> := {};
    for idx := 0 to |refs|
      invariant Verdict(refs, listings, idx) == ReleaseTo(eligible)
    {
      VerdictStands(refs, listings, idx + 1, |refs|);
      if listings[idx].None? {
        return ListFailed;
      }
      var found := ResolveFloxEnv(listings[idx].value, refs[idx]);
      if found.None? {
        return StayGated;
      }
      var nodes := ReadyNodesForEnv(found.value.env);
      if idx == 0 {
        eligible := nodes;
      } else {
        eligible := Intersect(eligible, nodes);
      }
      if eligible == {} {
        return StayGated;
      }
    }
    decision := ReleaseTo(eligible);
  }
}

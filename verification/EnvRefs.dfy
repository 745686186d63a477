/** internal/floxenv/floxenv.go: which envs a set of annotations refers to. */
module EnvRefs {
  import opened FloxApi

  const ANNOTATION_PREFIX := "flox.seedmatic.io/environment."
  const DEFAULT_CATEGORY := "networking"
  const SCHEDULING_GATE := "flox.seedmatic.io/env-ready"

  type Annotations = map<string, string>

  /** An annotation that opts a container into an env. */
  predicate OptsIn(key: string, value: string) {
    HasPrefix(key, ANNOTATION_PREFIX) && value != ""
  }

  /** The coordinate an annotation value stands for. */
  function ParseRef(value: string): EnvRef {
    match LastIndex(value, '/')
    case Some(i) => EnvRef(value[..i], value[i + 1..])
    case None => EnvRef(DEFAULT_CATEGORY, value)
  }

  function PrintRef(ref: EnvRef): string {
    ref.folder + "/" + ref.name
  }

  /** The references of a set of annotations, as a set. */
  function RefSet(annotations: Annotations): set<EnvRef> {
    set k | k in annotations && OptsIn(k, annotations[k]) :: ParseRef(annotations[k])
  }

  /** Go's string order: byte by byte, a proper prefix first. */
  predicate StringLess(a: string, b: string) {
    b != [] && (a == [] || a[0] < b[0] || (a[0] == b[0] && StringLess(a[1..], b[1..])))
  }

  predicate RefLess(a: EnvRef, b: EnvRef) {
    if a.folder != b.folder then StringLess(a.folder, b.folder) else StringLess(a.name, b.name)
  }

  lemma {:induction false} StringOrderTotal(a: string, b: string)
    ensures StringLess(a, b) || a == b || StringLess(b, a)
    ensures !(StringLess(a, b) && (a == b || StringLess(b, a)))
  {
    if a != [] && b != [] && a[0] == b[0] {
      StringOrderTotal(a[1..], b[1..]);
      assert a == [a[0]] + a[1..] && b == [b[0]] + b[1..];
    } else if a == b {
      assert a == [];
    }
  }

  lemma {:induction false} StringOrderTransitive(a: string, b: string, c: string)
    requires StringLess(a, b) && StringLess(b, c)
    ensures StringLess(a, c)
  {
    if a != [] && a[0] == b[0] == c[0] {
      StringOrderTransitive(a[1..], b[1..], c[1..]);
    }
  }

  /** A proper prefix comes first, and otherwise the smaller byte at the first difference decides. */
  lemma {:induction false} StringOrderReads(a: string, b: string)
    ensures StringLess(a, b) <==>
            (a <= b && |a| < |b|) || exists i :: 0 <= i < |a| && i < |b| && a[..i] == b[..i] && a[i] < b[i]
  {
    if a != [] && b != [] && a[0] == b[0] {
      StringOrderReads(a[1..], b[1..]);
      assert a == [a[0]] + a[1..] && b == [b[0]] + b[1..];
      if i :| 0 <= i < |a[1..]| && i < |b[1..]| && a[1..][..i] == b[1..][..i] && a[1..][i] < b[1..][i] {
        assert a[..i + 1] == [a[0]] + a[1..][..i] && b[..i + 1] == [b[0]] + b[1..][..i] && a[i + 1] < b[i + 1];
      }
      if i :| 0 <= i < |a| && i < |b| && a[..i] == b[..i] && a[i] < b[i] {
        assert a[1..][..i - 1] == a[..i][1..] && b[1..][..i - 1] == b[..i][1..] && a[1..][i - 1] < b[1..][i - 1];
      }
    } else if a != [] && b != [] && a[0] < b[0] {
      assert a[..0] == b[..0];
    }
  }

  /** References are listed by folder, and by name under one folder. */
  lemma RefOrderReads(folder: string, other: string, name: string, name': string)
    ensures RefLess(EnvRef(folder, name), EnvRef(folder, name')) <==> StringLess(name, name')
    ensures StringLess(folder, other) ==> RefLess(EnvRef(folder, name), EnvRef(other, name'))
  {
    StringOrderTotal(folder, other);
  }

  /** RefLess is a strict total order, which is what makes the sorted list canonical. */
  lemma RefOrderTotal(a: EnvRef, b: EnvRef)
    ensures RefLess(a, b) || a == b || RefLess(b, a)
    ensures !(RefLess(a, b) && (a == b || RefLess(b, a)))
  {
    StringOrderTotal(a.folder, b.folder);
    StringOrderTotal(a.name, b.name);
  }

  lemma RefOrderTransitive(a: EnvRef, b: EnvRef, c: EnvRef)
    requires RefLess(a, b) && RefLess(b, c)
    ensures RefLess(a, c)
  {
    if a.folder == b.folder && b.folder == c.folder {
      StringOrderTransitive(a.name, b.name, c.name);
    } else if a.folder != b.folder && b.folder != c.folder {
      StringOrderTransitive(a.folder, b.folder, c.folder);
      StringOrderTotal(a.folder, b.folder);
    }
  }

  ghost predicate StrictlySorted(refs: seq<EnvRef>) {
    forall i, j :: 0 <= i < j < |refs| ==> RefLess(refs[i], refs[j])
  }

  ghost predicate Lists(refs: seq<EnvRef>, s: set<EnvRef>) {
    forall r :: r in refs <==> r in s
  }

  /** At most one strictly sorted sequence has a given set of elements. */
  lemma {:induction false} SortedIsCanonical(a: seq<EnvRef>, b: seq<EnvRef>, s: set<EnvRef>)
    requires StrictlySorted(a) && StrictlySorted(b) && Lists(a, s) && Lists(b, s)
    ensures a == b
  {
    assert (a != [] ==> a[0] in s) && (b != [] ==> b[0] in s);
    if a != [] && b != [] {
      RefOrderTotal(a[0], b[0]);
      assert a[0] == b[0];
      forall r ensures (r in a[1..] <==> r in s - {a[0]}) && (r in b[1..] <==> r in s - {a[0]}) {
        RefOrderTotal(a[0], r);
        assert a == [a[0]] + a[1..] && b == [b[0]] + b[1..];
        assert forall i :: 1 <= i < |a| ==> RefLess(a[0], a[i]);
        assert forall i :: 1 <= i < |b| ==> RefLess(b[0], b[i]);
      }
      SortedIsCanonical(a[1..], b[1..], s - {a[0]});
    }
  }

  /** Inserting into a strictly sorted list. */
  function Insert(refs: seq<EnvRef>, x: EnvRef): (r: seq<EnvRef>) {
    if refs == [] then [x]
    else if RefLess(x, refs[0]) then [x] + refs
    else [refs[0]] + Insert(refs[1..], x)
  }

  lemma {:induction false} InsertKeepsOrder(refs: seq<EnvRef>, x: EnvRef)
    requires StrictlySorted(refs) && x !in refs
    ensures StrictlySorted(Insert(refs, x))
    ensures forall r :: r in Insert(refs, x) <==> r in refs || r == x
  {
    if refs != [] {
      RefOrderTotal(x, refs[0]);
      if RefLess(x, refs[0]) {
        forall i | 0 <= i < |refs| ensures RefLess(x, refs[i]) {
          if i > 0 { RefOrderTransitive(x, refs[0], refs[i]); }
        }
      } else {
        InsertKeepsOrder(refs[1..], x);
        var tail := Insert(refs[1..], x);
        assert refs == [refs[0]] + refs[1..];
        forall i | 0 <= i < |tail| ensures RefLess(refs[0], tail[i]) {
          assert tail[i] in tail;
          if tail[i] != x {
            var j :| 0 <= j < |refs[1..]| && refs[1..][j] == tail[i];
            assert refs[j + 1] == tail[i];
          }
        }
      }
    }
  }

  /** sort.Slice on the collected references. The library's algorithm is not specified, only its
      result; this one inserts one reference at a time. */
  method SortRefs(refs: seq<EnvRef>) returns (sorted: seq<EnvRef>)
    requires forall i, j :: 0 <= i < j < |refs| ==> refs[i] != refs[j]
    ensures StrictlySorted(sorted)
    ensures forall r :: r in sorted <==> r in refs
  {
    sorted := [];
    for i := 0 to |refs|
      invariant StrictlySorted(sorted)
      invariant forall r :: r in sorted <==> r in refs[..i]
    {
      assert refs[..i + 1] == refs[..i] + [refs[i]];
      InsertKeepsOrder(sorted, refs[i]);
      sorted := Insert(sorted, refs[i]);
    }
    assert refs[..|refs|] == refs;
  }

  /** The references of a set of annotations: whatever order the two maps are iterated in, the
      result is the strictly sorted list of the reference set. */
  method RefsFromAnnotations(annotations: Annotations) returns (refs: seq<EnvRef>)
    ensures StrictlySorted(refs) && Lists(refs, RefSet(annotations))
  {
    var seen: set<EnvRef> := {};
    var todo := annotations.Keys;
    while todo != {}
      invariant todo <= annotations.Keys
      invariant seen == set k | k in annotations && k !in todo && OptsIn(k, annotations[k]) :: ParseRef(annotations[k])
      decreases todo
    {
      var k :| k in todo;
      todo := todo - {k};
      if OptsIn(k, annotations[k]) {
        seen := seen + {ParseRef(annotations[k])};
      }
    }
    assert seen == RefSet(annotations);
    refs := [];
    var rest := seen;
    while rest != {}
      invariant rest <= seen
      invariant forall r :: r in refs <==> r in seen - rest
      invariant forall i, j :: 0 <= i < j < |refs| ==> refs[i] != refs[j]
      decreases rest
    {
      var r :| r in rest;
      assert forall i :: 0 <= i < |refs| ==> refs[i] in refs;
      refs, rest := refs + [r], rest - {r};
    }
    refs := SortRefs(refs);
  }

  /** Every finite set of references has its sorted list. */
  lemma {:induction false} SortedListExists(s: set<EnvRef>) returns (refs: seq<EnvRef>)
    ensures StrictlySorted(refs) && Lists(refs, s)
  {
    if s == {} {
      refs := [];
    } else {
      var x :| x in s;
      var rest := SortedListExists(s - {x});
      InsertKeepsOrder(rest, x);
      refs := Insert(rest, x);
    }
  }

  /** The list RefsFromAnnotations returns, as a function for specifications. */
  ghost function Refs(annotations: Annotations): (refs: seq<EnvRef>)
    ensures StrictlySorted(refs) && Lists(refs, RefSet(annotations))
  {
    assert exists refs :: StrictlySorted(refs) && Lists(refs, RefSet(annotations)) by {
      var refs := SortedListExists(RefSet(annotations));
    }
    var refs :| StrictlySorted(refs) && Lists(refs, RefSet(annotations));
    refs
  }

  /** Two annotation maps with the same references give the same list, and every list
      RefsFromAnnotations may return is that one. */
  lemma RefsAreCanonical(a: Annotations, b: Annotations, listed: seq<EnvRef>)
    requires StrictlySorted(listed) && Lists(listed, RefSet(a))
    ensures listed == Refs(a)
    ensures RefSet(a) == RefSet(b) <==> Refs(a) == Refs(b)
  {
    SortedIsCanonical(listed, Refs(a), RefSet(a));
    if RefSet(a) == RefSet(b) {
      SortedIsCanonical(Refs(a), Refs(b), RefSet(a));
    }
    if Refs(a) == Refs(b) {
      assert forall r :: r in RefSet(a) <==> r in RefSet(b);
    }
  }

  /** The webhook's envName: the part after the last separator. */
  function EnvName(value: string): string {
    match LastIndex(value, '/')
    case Some(i) => value[i + 1..]
    case None => value
  }

  /** Printing and parsing are inverse: for a slash-free name under any folder, and for any value
      that has a separator. A value without one reads as a name under the default category. The
      webhook's own reading of a value agrees with the parsed name on every value. */
  lemma RefRoundTrip(ref: EnvRef, value: string)
    ensures '/' !in ref.name ==> ParseRef(PrintRef(ref)) == ref
    ensures '/' in value ==> PrintRef(ParseRef(value)) == value
    ensures '/' !in value ==> ParseRef(value) == ParseRef(DEFAULT_CATEGORY + "/" + value)
    ensures '/' !in ParseRef(value).name
    ensures EnvName(value) == ParseRef(value).name
  {
    SplitAtLast(ref.folder, ref.name);
    SplitAtLast(DEFAULT_CATEGORY, value);
    if '/' in value {
      var i := LastIndex(value, '/').value;
      assert value == value[..i] + "/" + value[i + 1..];
    }
  }

  /** Which annotations refer to an env, as they are written. */
  lemma RefSetReads(annotations: Annotations, folder: string, name: string)
    requires '/' !in name
    ensures EnvRef(folder, name) in RefSet(annotations) <==>
            exists k :: k in annotations && "flox.seedmatic.io/environment." <= k
                        && (annotations[k] == folder + "/" + name
                            || (annotations[k] == name != "" && folder == "networking"))
  {
    if k :| k in annotations && "flox.seedmatic.io/environment." <= k
            && (annotations[k] == folder + "/" + name || (annotations[k] == name != "" && folder == "networking"))
    {
      RefRoundTrip(EnvRef(folder, name), annotations[k]);
      assert OptsIn(k, annotations[k]) && ParseRef(annotations[k]) == EnvRef(folder, name);
    }
    if k :| k in annotations && OptsIn(k, annotations[k]) && ParseRef(annotations[k]) == EnvRef(folder, name) {
      RefRoundTrip(EnvRef(folder, name), annotations[k]);
      var v := annotations[k];
      if '/' !in v {
        RefRoundTrip(EnvRef("networking", v), v);
      }
      assert "flox.seedmatic.io/environment." <= k;
    }
  }

  lemma LastIndexIs(s: string, c: char, i: nat)
    requires i < |s| && s[i] == c && c !in s[i + 1..]
    ensures LastIndex(s, c) == Some(i)
  {
  }

  lemma SplitAtLast(folder: string, name: string)
    ensures '/' !in name ==> LastIndex(folder + "/" + name, '/') == Some(|folder|)
    ensures (folder + "/" + name)[..|folder|] == folder
    ensures (folder + "/" + name)[|folder| + 1..] == name
  {
    var v := folder + "/" + name;
    assert v[|folder| + 1..] == name;
    if '/' !in name {
      LastIndexIs(v, '/', |folder|);
    }
  }
}

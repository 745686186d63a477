/** internal/controller/floxenv_controller.go, the "floxcatalog:" pseudo-scheme: parsing a reference and
    rewriting a manifest's install table to concrete flake references. */
module FlakeInstalls {
  import opened FloxApi

  const SCHEME := "floxcatalog:"

  datatype CatalogRef = CatalogRef(namespace: string, name: string, output: string)

  /** The parts before and after the first c. */
  function Cut(s: string, c: char): (r: Option<(string, string)>)
    ensures r.None? ==> c !in s
    ensures r.Some? ==> s == r.value.0 + [c] + r.value.1 && c !in r.value.0
  {
    match Index(s, c)
    case Some(i) => Some((s[..i], s[i + 1..]))
    case None => None
  }

  function SplitOutput(whole: string): (string, string) {
    match Cut(whole, '#')
    case Some((body, output)) => (body, output)
    case None => (whole, "")
  }

  function SplitNamespace(body: string): (string, string) {
    match Cut(body, '/')
    case Some((ns, name)) => (ns, name)
    case None => ("", body)
  }

  /** parseFloxCatalogRef; None is the "invalid ref" error. */
  function ParseCatalogRef(s: string): Option<CatalogRef> {
    var (body, output) := SplitOutput(TrimPrefix(s, SCHEME));
    var (ns, name) := SplitNamespace(body);
    if name == "" then None else Some(CatalogRef(ns, name, output))
  }

  function PrintBody(ref: CatalogRef): string {
    if ref.namespace == "" then ref.name else ref.namespace + ['/'] + ref.name
  }

  function PrintCatalogRef(ref: CatalogRef): string {
    SCHEME + (if ref.output == "" then PrintBody(ref) else PrintBody(ref) + ['#'] + ref.output)
  }

  predicate WellFormed(ref: CatalogRef) {
    && ref.name != ""
    && '#' !in ref.namespace && '#' !in ref.name
    && '/' !in ref.namespace
    && (ref.namespace == "" ==> '/' !in ref.name)
  }

  lemma IndexIs(s: string, c: char, i: nat)
    requires i < |s| && s[i] == c && c !in s[..i]
    ensures Index(s, c) == Some(i)
  {
  }

  lemma CutIs(left: string, c: char, right: string)
    requires c !in left
    ensures Cut(left + [c] + right, c) == Some((left, right))
  {
    var s := left + [c] + right;
    assert s[..|left|] == left;
    assert s[|left| + 1..] == right;
    IndexIs(s, c, |left|);
  }

  lemma SplitOutputInvertsPrint(body: string, output: string)
    requires '#' !in body
    ensures SplitOutput(if output == "" then body else body + ['#'] + output) == (body, output)
  {
    CutIs(body, '#', output);
  }

  lemma SplitNamespaceInvertsPrint(ref: CatalogRef)
    ensures SplitNamespace(PrintBody(ref)) == (ref.namespace, ref.name)
            <==> '/' !in ref.namespace && (ref.namespace == "" ==> '/' !in ref.name)
  {
    if ref.namespace != "" && '/' !in ref.namespace {
      CutIs(ref.namespace, '/', ref.name);
    }
  }

  lemma ParsedHasNoHash(s: string)
    ensures var r := ParseCatalogRef(s); r.Some? ==> '#' !in r.value.namespace && '#' !in r.value.name
  {
  }

  /** A reference survives printing and parsing exactly when it is well formed. */
  lemma CatalogRefRoundTrip(ref: CatalogRef)
    ensures ParseCatalogRef(PrintCatalogRef(ref)) == Some(ref) <==> WellFormed(ref)
  {
    ParsedHasNoHash(PrintCatalogRef(ref));
    if '#' !in ref.namespace && '#' !in ref.name {
      var body := PrintBody(ref);
      var whole := if ref.output == "" then body else body + ['#'] + ref.output;
      assert TrimPrefix(PrintCatalogRef(ref), SCHEME) == whole;
      SplitNamespaceInvertsPrint(ref);
      SplitOutputInvertsPrint(body, ref.output);
    }
  }

  /** What a Get of a FloxCatalog returns. `flakeRef` is "" until its artifact is resolved. */
  datatype CatalogRead = NotFound | ReadFailed | Found(flakeRef: string)

  datatype FlakeError = InvalidRef | CatalogNotFound | CatalogUnreadable

  datatype EntryOutcome = Keep(value: Value) | Wait | Fail(error: FlakeError)

  /** The value of install.<id>.flake when it uses the pseudo-scheme. */
  function SchemeRef(entry: Value): Option<string> {
    if entry.Table? && "flake" in entry.fields && entry.fields["flake"].Text?
       && HasPrefix(entry.fields["flake"].text, SCHEME)
    then Some(entry.fields["flake"].text) else None
  }

  /** One turn of the loop over the install table. */
  function ResolveEntry(envNS: string, catalogs: Key -> CatalogRead, entry: Value): EntryOutcome {
    match SchemeRef(entry)
    case None => Keep(entry)
    case Some(raw) =>
      match ParseCatalogRef(raw)
      case None => Fail(InvalidRef)
      case Some(ref) =>
        match catalogs(Key(if ref.namespace == "" then envNS else ref.namespace, ref.name))
        case NotFound => Fail(CatalogNotFound)
        case ReadFailed => Fail(CatalogUnreadable)
        case Found(flakeRef) =>
          if flakeRef == "" then Wait
          else
            var concrete := if ref.output == "" then flakeRef else flakeRef + "#" + ref.output;
            Keep(Table(entry.fields["flake" := Text(concrete)]))
  }

  /** An install entry written with this reference. */
  predicate Names(entry: Value, ref: CatalogRef) {
    && entry.Table? && "flake" in entry.fields
    && entry.fields["flake"] == Text(
         "floxcatalog:" + ((if ref.namespace == "" then "" else ref.namespace + "/") + ref.name + (if ref.output == "" then "" else "#" + ref.output)))
  }

  lemma NamesAsPrinted(entry: Value, ref: CatalogRef)
    requires Names(entry, ref)
    ensures SchemeRef(entry) == Some(PrintCatalogRef(ref))
  {
    var namespace := if ref.namespace == "" then "" else ref.namespace + "/";
    var output := if ref.output == "" then "" else "#" + ref.output;
    assert namespace + ref.name == PrintBody(ref);
    assert PrintBody(ref) + output == if ref.output == "" then PrintBody(ref) else PrintBody(ref) + ['#'] + ref.output;
    assert entry.fields["flake"].text == PrintCatalogRef(ref);
    assert HasPrefix(PrintCatalogRef(ref), SCHEME);
  }

  /** The entry with its reference replaced by this text. */
  predicate Becomes(before: Value, after: Value, text: string)
    requires before.Table?
  {
    && after.Table? && after.fields.Keys == before.fields.Keys + {"flake"} && after.fields["flake"] == Text(text)
    && forall f :: f in before.fields && f != "flake" ==> after.fields[f] == before.fields[f]
  }

  /** What becomes of an entry with a well-formed reference, by what the Get of its catalog returns, under the
      namespace written or the env's own. */
  lemma EntryResolvesTo(envNS: string, catalogs: Key -> CatalogRead, entry: Value, ref: CatalogRef)
    requires WellFormed(ref) && Names(entry, ref)
    ensures var outcome := ResolveEntry(envNS, catalogs, entry);
      match catalogs(Key(if ref.namespace == "" then envNS else ref.namespace, ref.name))
      case NotFound => outcome == Fail(CatalogNotFound)
      case ReadFailed => outcome == Fail(CatalogUnreadable)
      case Found(flakeRef) =>
        if flakeRef == "" then outcome == Wait
        else outcome.Keep? && Becomes(entry, outcome.value, if ref.output == "" then flakeRef else flakeRef + "#" + ref.output)
  {
    NamesAsPrinted(entry, ref);
    CatalogRefRoundTrip(ref);
  }

  function InstallTable(m: Manifest): map<string, Value> {
    if "install" in m && m["install"].Table? then m["install"].fields else map[]
  }

  ghost predicate AllKeep(envNS: string, catalogs: Key -> CatalogRead, install: map<string, Value>) {
    forall id :: id in install ==> ResolveEntry(envNS, catalogs, install[id]).Keep?
  }

  ghost predicate AllResolve(envNS: string, catalogs: Key -> CatalogRead, m: Manifest) {
    AllKeep(envNS, catalogs, InstallTable(m))
  }

  ghost function ResolvedTable(envNS: string, catalogs: Key -> CatalogRead, install: map<string, Value>):
    map<string, Value>
    requires AllKeep(envNS, catalogs, install)
  {
    map id | id in install :: ResolveEntry(envNS, catalogs, install[id]).value
  }

  /** The manifest with every install entry rewritten. */
  ghost function ResolvedManifest(envNS: string, catalogs: Key -> CatalogRead, m: Manifest): Manifest
    requires AllResolve(envNS, catalogs, m)
  {
    if "install" in m && m["install"].Table?
    then m["install" := Table(ResolvedTable(envNS, catalogs, m["install"].fields))]
    else m
  }

  /** The manifest's install table has this entry, with a well-formed reference. */
  predicate Installs(m: Manifest, id: string, ref: CatalogRef) {
    "install" in m && m["install"].Table? && id in m["install"].fields && WellFormed(ref) && Names(m["install"].fields[id], ref)
  }

  /** The entry's flake is that of the catalog the reference names, with its output. */
  ghost predicate InstallsConcrete(envNS: string, catalogs: Key -> CatalogRead, m: Manifest, out: Manifest, id: string, ref: CatalogRef)
    requires Installs(m, id, ref)
  {
    var catalog := catalogs(Key(if ref.namespace == "" then envNS else ref.namespace, ref.name));
    && catalog.Found? && catalog.flakeRef != ""
    && "install" in out && out["install"].Table? && id in out["install"].fields
    && Becomes(m["install"].fields[id], out["install"].fields[id],
               if ref.output == "" then catalog.flakeRef else catalog.flakeRef + "#" + ref.output)
  }

  /** So a manifest that resolves installs from exactly the catalogs its references name. */
  lemma ResolvedInstalls(envNS: string, catalogs: Key -> CatalogRead, m: Manifest, id: string, ref: CatalogRef)
    requires AllResolve(envNS, catalogs, m) && Installs(m, id, ref)
    ensures InstallsConcrete(envNS, catalogs, m, ResolvedManifest(envNS, catalogs, m), id, ref)
  {
    EntryResolvesTo(envNS, catalogs, m["install"].fields[id], ref);
    assert ResolveEntry(envNS, catalogs, InstallTable(m)[id]).Keep?;
  }

  datatype Resolution = Resolved | Waiting | Failed(id: string, error: FlakeError)

  /** resolveFlakeInstalls. The install table is visited in an arbitrary order and the loop stops at
      the first entry that waits or fails. Success and the manifest it yields do not depend on that
      order; which of several obstacles is reported does. */
  method ResolveFlakeInstalls(envNS: string, catalogs: Key -> CatalogRead, m: Manifest)
    returns (outcome: Resolution, out: Manifest)
    ensures outcome.Resolved? <==> AllResolve(envNS, catalogs, m)
    ensures outcome.Resolved? ==> out == ResolvedManifest(envNS, catalogs, m)
    ensures outcome.Resolved? ==> forall id, ref :: Installs(m, id, ref) ==> InstallsConcrete(envNS, catalogs, m, out, id, ref)
    ensures outcome.Waiting? ==>
              exists id :: id in InstallTable(m) && ResolveEntry(envNS, catalogs, InstallTable(m)[id]) == Wait
    ensures outcome.Failed? ==>
              outcome.id in InstallTable(m) &&
              ResolveEntry(envNS, catalogs, InstallTable(m)[outcome.id]) == Fail(outcome.error)
  {
    out := m;
    if AllResolve(envNS, catalogs, m) {
      forall id, ref | Installs(m, id, ref) ensures InstallsConcrete(envNS, catalogs, m, ResolvedManifest(envNS, catalogs, m), id, ref) {
        ResolvedInstalls(envNS, catalogs, m, id, ref);
      }
    }
    if "install" !in m || !m["install"].Table? {
      return Resolved, out;
    }
    var install := m["install"].fields;
    var todo := install.Keys;
    while todo != {}
      invariant todo <= install.Keys
      invariant forall id :: id in install && id !in todo ==> ResolveEntry(envNS, catalogs, install[id]).Keep?
      invariant out.Keys == m.Keys && forall k :: k in m && k != "install" ==> out[k] == m[k]
      invariant out["install"].Table? && out["install"].fields.Keys == install.Keys
      invariant forall id :: id in todo ==> out["install"].fields[id] == install[id]
      invariant forall id :: id in install && id !in todo ==>
                  out["install"].fields[id] == ResolveEntry(envNS, catalogs, install[id]).value
      decreases todo
    {
      var id :| id in todo;
      todo := todo - {id};
      match ResolveEntry(envNS, catalogs, install[id]) {
        case Wait =>
          assert !AllKeep(envNS, catalogs, install) by { assert !ResolveEntry(envNS, catalogs, install[id]).Keep?; }
          return Waiting, out;
        case Fail(error) => return Failed(id, error), out;
        case Keep(value) => out := out["install" := Table(out["install"].fields[id := value])];
      }
    }
    assert out["install"].fields == ResolvedTable(envNS, catalogs, install);
    assert out == ResolvedManifest(envNS, catalogs, m);
    outcome := Resolved;
  }

  /** The catalogs' flake references never start with the pseudo-scheme. */
  ghost predicate Concrete(catalogs: Key -> CatalogRead) {
    forall key :: catalogs(key).Found? ==> !HasPrefix(catalogs(key).flakeRef, SCHEME)
  }

  /** The reference FloxCatalogReconciler derives from a resolved artifact URL. */
  function FlakeRef(reachableURL: string, dir: string): string {
    "tarball+" + reachableURL + (if dir == "" then "" else "?dir=" + dir)
  }

  lemma DerivedRefsAreConcrete(reachableURL: string, dir: string)
    ensures FlakeRef(reachableURL, "") == "tarball+" + reachableURL
    ensures dir != "" ==> FlakeRef(reachableURL, dir) == "tarball+" + reachableURL + "?dir=" + dir
    ensures !HasPrefix(FlakeRef(reachableURL, dir), SCHEME) && FlakeRef(reachableURL, dir) != ""
  {
    assert "tarball+" + reachableURL + "" == "tarball+" + reachableURL;
    assert "tarball+" + reachableURL + ("?dir=" + dir) == "tarball+" + reachableURL + "?dir=" + dir;
    assert FlakeRef(reachableURL, dir)[0] == 't';
  }

  /** An entry may only change in its flake field, and only when that used the pseudo-scheme. */
  ghost predicate OnlyFlakeRewritten(before: Value, after: Value) {
    if SchemeRef(before) == None then after == before
    else
      && after.Table? && after.fields.Keys == before.fields.Keys
      && SchemeRef(after) == None
      && forall f :: f in before.fields && f != "flake" ==> after.fields[f] == before.fields[f]
  }

  /** A rewritten entry differs in its flake only, which is then free of the pseudo-scheme. */
  lemma RewrittenFlake(envNS: string, catalogs: Key -> CatalogRead, before: Value) returns (text: string)
    requires Concrete(catalogs) && ResolveEntry(envNS, catalogs, before).Keep? && SchemeRef(before).Some?
    ensures ResolveEntry(envNS, catalogs, before).value == Table(before.fields["flake" := Text(text)])
    ensures !HasPrefix(text, SCHEME)
  {
    var ref := ParseCatalogRef(SchemeRef(before).value).value;
    var flakeRef := catalogs(Key(if ref.namespace == "" then envNS else ref.namespace, ref.name)).flakeRef;
    if ref.output == "" {
      text := flakeRef;
    } else {
      text := flakeRef + "#" + ref.output;
      assert text == flakeRef + ("#" + ref.output);
      SchemeSurvivesSuffix(flakeRef, "#" + ref.output);
    }
  }

  lemma EntryIsRewritten(envNS: string, catalogs: Key -> CatalogRead, before: Value)
    requires Concrete(catalogs) && ResolveEntry(envNS, catalogs, before).Keep?
    ensures OnlyFlakeRewritten(before, ResolveEntry(envNS, catalogs, before).value)
    ensures SchemeRef(ResolveEntry(envNS, catalogs, before).value) == None
  {
    if SchemeRef(before).Some? {
      var text := RewrittenFlake(envNS, catalogs, before);
    }
  }

  /** After a successful resolution no install flake uses the pseudo-scheme and nothing but those
      flake fields has changed. */
  lemma ResolutionIsCompleteAndMinimal(envNS: string, catalogs: Key -> CatalogRead, m: Manifest)
    requires Concrete(catalogs) && AllResolve(envNS, catalogs, m)
    ensures var r := ResolvedManifest(envNS, catalogs, m);
      && (forall id :: id in InstallTable(r) ==> SchemeRef(InstallTable(r)[id]) == None)
      && r.Keys == m.Keys && (forall k :: k in m && k != "install" ==> r[k] == m[k])
      && InstallTable(r).Keys == InstallTable(m).Keys
      && (forall id :: id in InstallTable(m) ==> OnlyFlakeRewritten(InstallTable(m)[id], InstallTable(r)[id]))
  {
    var install := InstallTable(m);
    forall id | id in install
      ensures OnlyFlakeRewritten(install[id], ResolvedTable(envNS, catalogs, install)[id])
      ensures SchemeRef(ResolvedTable(envNS, catalogs, install)[id]) == None
    {
      EntryIsRewritten(envNS, catalogs, install[id]);
    }
    assert InstallTable(ResolvedManifest(envNS, catalogs, m)) == ResolvedTable(envNS, catalogs, install);
  }

  /** Resolving a resolved manifest again, against whatever catalogs, succeeds and changes nothing. */
  lemma ResolutionIsIdempotent(
    envNS: string, catalogs: Key -> CatalogRead, m: Manifest, ns2: string, catalogs2: Key -> CatalogRead)
    requires Concrete(catalogs) && AllResolve(envNS, catalogs, m)
    ensures var r := ResolvedManifest(envNS, catalogs, m);
      AllResolve(ns2, catalogs2, r) && ResolvedManifest(ns2, catalogs2, r) == r
  {
    ResolutionIsCompleteAndMinimal(envNS, catalogs, m);
    var r := ResolvedManifest(envNS, catalogs, m);
    assert AllKeep(ns2, catalogs2, InstallTable(r));
    assert ResolvedTable(ns2, catalogs2, InstallTable(r)) == InstallTable(r);
  }

  /** Appending an output to a reference cannot introduce the scheme, whose text has no '#'. */
  lemma SchemeSurvivesSuffix(flakeRef: string, suffix: string)
    requires !HasPrefix(flakeRef, SCHEME)
    requires suffix != "" && suffix[0] == '#'
    ensures !HasPrefix(flakeRef + suffix, SCHEME)
  {
    var s := flakeRef + suffix;
    assert '#' !in SCHEME;
    assert forall i :: 0 <= i < |SCHEME| ==> SCHEME[i] in SCHEME;
    assert s[|flakeRef|] == '#';
    assert |SCHEME| <= |flakeRef| ==> s[..|SCHEME|] == flakeRef[..|SCHEME|];
  }
}

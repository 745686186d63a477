/** The API objects the controllers read and write, and the two pieces of string handling
    (prefix test and last-separator split) every other module needs.

    Strings stand for Go strings: sequences of bytes, compared byte by byte. */
module FloxApi {

  datatype Option<+T> = None | Some(value: T)

  /** metadata.namespace and metadata.name. */
  datatype Key = Key(ns: string, name: string)

  /** A host-layout coordinate: (spec.folder or namespace, metadata.name). */
  datatype EnvRef = EnvRef(folder: string, name: string)

  datatype ConditionStatus = True | False | Unknown

  /** The Ready condition. It is the only condition type these controllers set, so a condition
      list is an optional Ready condition. */
  datatype Condition = Condition(status: ConditionStatus, reason: string, message: string, observed: nat)

  datatype NodeRealization = NodeRealization(
    node: string, ready: bool, storePath: string, envPath: string, gcrootPath: string, observed: nat)

  datatype EnvStatus = EnvStatus(
    ready: Option<Condition>, lock: string, relockToken: string, realized: seq<NodeRealization>)

  /** A decoded manifest value: text, a nested table, or anything the controller never looks into. */
  datatype Value = Text(text: string) | Table(fields: map<string, Value>) | Opaque(id: int)

  type Manifest = map<string, Value>

  datatype EnvSpec = EnvSpec(folder: string, dependsOn: seq<string>, manifest: Manifest)

  /** A FloxEnv. `relock` is the value of its relock annotation ("" when absent). */
  datatype FloxEnv = FloxEnv(generation: nat, spec: EnvSpec, relock: string, status: EnvStatus)

  const PENDING := "Pending"
  const WAITING_FOR_FLAKE := "WaitingForFlake"
  const WAITING_FOR_DEPS := "WaitingForDeps"
  const REALIZING := "Realizing"
  const REALIZED := "Realized"

  predicate IsReady(env: FloxEnv) {
    env.status.ready.Some? && env.status.ready.value.status == True
  }

  /** spec.folder, defaulting to the namespace. */
  function EffectiveFolder(key: Key, env: FloxEnv): string {
    if env.spec.folder != "" then env.spec.folder else key.ns
  }

  function Coordinate(key: Key, env: FloxEnv): EnvRef {
    EnvRef(EffectiveFolder(key, env), key.name)
  }

  predicate HasPrefix(s: string, prefix: string) {
    prefix <= s
  }

  function TrimPrefix(s: string, prefix: string): string {
    if HasPrefix(s, prefix) then s[|prefix|..] else s
  }

  /** Position of the last occurrence of c in s. */
  function LastIndex(s: string, c: char): (r: Option<nat>)
    ensures r.None? ==> c !in s
    ensures r.Some? ==> r.value < |s| && s[r.value] == c && c !in s[r.value + 1..]
  {
    if s == [] then None
    else if s[|s| - 1] == c then Some(|s| - 1)
    else
      var r := LastIndex(s[..|s| - 1], c);
      assert s == s[..|s| - 1] + [s[|s| - 1]];
      r
  }

  /** Position of the first occurrence of c in s. */
  function Index(s: string, c: char): (r: Option<nat>)
    ensures r.None? ==> c !in s
    ensures r.Some? ==> r.value < |s| && s[r.value] == c && c !in s[..r.value]
  {
    if s == [] then None
    else if s[0] == c then Some(0)
    else
      match Index(s[1..], c)
      case None => None
      case Some(i) =>
        assert s[..i + 1] == [s[0]] + s[1..][..i];
        Some(i + 1)
  }
}

// The values the engine passes around: records, plans, errors.
// Times are natural numbers, SHA-256 is a free constructor (so it is injective and
// never equals the word "missing"), and a generated unit is named by its resource.
module Model {
  import opened QuadletNames

  datatype Option<+T> = None | Some(value: T)

  datatype Digest = Missing | Sha256(text: string)

  // A recorded baseline is always the hash of some source.
  type Hash = d: Digest | d.Sha256? witness Sha256("")

  datatype Unit = NoUnit | Service(name: string)

  datatype Operation = Install | Update | Remove | Other(text: string)

  datatype HistoryEntry = Entry(at: nat, operation: Operation)

  datatype Directory = Directory(
    name: string, rootId: string, relativePath: string, hostPath: string, agentPath: string,
    containerPath: string, readOnly: bool, securityIntent: string, mountSuffix: string)

  datatype ResourceState = ResourceState(name: string, unit: Unit, sha: Hash, source: string)

  datatype Instance = Instance(
    id: string, catalogId: string, catalogVersion: string, parameters: map<string, string>,
    resources: map<string, ResourceState>, directories: seq<Directory>,
    installedAt: nat, updatedAt: nat, removedAt: Option<nat>, history: seq<HistoryEntry>)

  datatype Rendered = Rendered(
    name: string, unit: Unit, content: string, start: bool, sha: Hash, previousSha: Option<Hash>)

  datatype Drift = Drift(resource: string, expected: Hash, actual: Digest)

  datatype PlanDigest = NoDigest | DigestOf(plan: Plan)

  datatype Plan = Plan(
    id: string, digest: PlanDigest, operation: Operation, appId: string, catalogVersion: string,
    instanceId: string, parameters: map<string, string>, directories: seq<Directory>,
    resources: seq<Rendered>, drift: seq<Drift>, createdAt: nat, expiresAt: nat)

  datatype Error =
    | InvalidId | NotFound | StateUnreadable
    | PlanExpired | DigestMismatch | DriftDetected(drift: seq<Drift>)
    | SourceRefused(name: string)      // a Podman install or remove that failed
    | SourceUnreadable(name: string) | ListUnreadable
    | ReloadFailed
    | UnitFailed(unit: Unit)           // a systemd start, stop, restart or status that failed
    | UnitNotActive(unit: Unit)
    | UnitNotGenerated(name: string)
    | DirectoryFailed | SaveFailed | DocsFailed
    | RequestRefused(reason: string)
    | RollbackFailed(cause: Error, during: seq<Error>)

  // What the client reads back of a source: its first 2 MiB.
  const READ_LIMIT: nat := 2 * 1024 * 1024

  function Cut(source: string): string {
    if |source| <= READ_LIMIT then source else source[..READ_LIMIT]
  }

  function PlanDigestOf(p: Plan): PlanDigest {
    DigestOf(p.(digest := NoDigest))
  }

  // A digest fits one plan only: whatever is changed in a stored plan, it shows.
  lemma DigestFitsOnePlan(p: Plan, q: Plan)
    ensures PlanDigestOf(p) == PlanDigestOf(q) <==> p.(digest := q.digest) == q
  {
    assert p.(digest := NoDigest).(digest := q.digest) == p.(digest := q.digest);
    assert q.(digest := NoDigest).(digest := q.digest) == q;
  }

  function NameSet(names: seq<string>): set<string> {
    set n | n in names
  }

  function Names(rs: seq<Rendered>): (names: seq<string>)
    ensures |names| == |rs| && forall i :: 0 <= i < |rs| ==> names[i] == rs[i].name
  {
    seq(|rs|, i requires 0 <= i < |rs| => rs[i].name)
  }

  ghost predicate Distinct(names: seq<string>) {
    forall i, j :: 0 <= i < j < |names| ==> names[i] != names[j]
  }

  // The source map a list of rendered resources stands for.
  function SourceMap(rs: seq<Rendered>): (m: map<string, string>)
    ensures m.Keys == NameSet(Names(rs))
  {
    if rs == [] then
      map[]
    else
      var k := |rs| - 1;
      assert Names(rs) == Names(rs[..k]) + [rs[k].name];
      SourceMap(rs[..k])[rs[k].name := rs[k].content]
  }

  // The part of a source map that lives under the given names.
  function Restrict(m: map<string, string>, names: set<string>): map<string, string> {
    map n | n in names && n in m :: m[n]
  }

  // The hash of a source as the client reads it.
  function LiveDigest(store: map<string, string>, name: string): Digest {
    if ClientAccepts(name) && name in store then Sha256(Cut(store[name])) else Missing
  }

  // What drift detection must find before it lets a plan run: every recorded resource is
  // live and hashes to its baseline.
  ghost predicate DriftFree(record: Instance, store: map<string, string>) {
    forall n :: n in record.resources ==> LiveDigest(store, n) == record.resources[n].sha
  }

  // The drift an undisturbed look at the named resources finds.
  function DriftAlong(record: Instance, store: map<string, string>, names: seq<string>): seq<Drift>
    requires forall n :: n in names ==> n in record.resources
  {
    if names == [] then
      []
    else
      var last := names[|names| - 1];
      assert forall n :: n in names[..|names| - 1] ==> n in names;
      var want, got := record.resources[last].sha, LiveDigest(store, last);
      DriftAlong(record, store, names[..|names| - 1]) + if got == want then [] else [Drift(last, want, got)]
  }

  // No drift is found exactly when every baseline matches.
  lemma {:induction false} NoDriftIsDriftFree(record: Instance, store: map<string, string>, names: seq<string>)
    requires forall n :: n in names ==> n in record.resources
    ensures DriftAlong(record, store, names) == [] <==>
      forall n :: n in names ==> LiveDigest(store, n) == record.resources[n].sha
  {
    if names != [] {
      var k := |names| - 1;
      assert names == names[..k] + [names[k]];
      NoDriftIsDriftFree(record, store, names[..k]);
    }
  }
}

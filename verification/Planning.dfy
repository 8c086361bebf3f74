// Planning: from a request to a stored plan. Nothing on the machine changes but the plan
// store; what a plan promises is what executions and whole runs later rest on.
module Planning {
  import opened QuadletNames
  import opened Ordering
  import opened Model
  import opened Hosts
  import opened Journal
  import opened Engines
  import Text
  import Paths
  import Versions
  import Catalogs

  // ---- the ownership header ----

  const MANAGER := "# Managed-by: Home Server Deployer"
  const FOR_INSTANCE := "# Deployer-Instance: "
  const FROM_CATALOG := "# Deployer-Catalog: "
  const MANAGED_BY := MANAGER + ['\n'] + FOR_INSTANCE

  function Mark(id: string): string {
    MANAGED_BY + id + ['\n']
  }

  function Header(id: string, app: Catalogs.App): string {
    Mark(id) + (FROM_CATALOG + app.id + "@" + app.version + ['\n'])
  }

  // The source says it was rendered for this instance.
  ghost predicate Marked(source: string, id: string) {
    Mark(id) <= source
  }

  // A source carries the mark of one instance at most.
  lemma MarkNamesOneInstance(source: string, a: string, b: string)
    requires Catalogs.SafeId(a) && Catalogs.SafeId(b)
    requires Marked(source, a) && Marked(source, b)
    ensures a == b
  {
    var rest := source[|MANAGED_BY|..];
    FirstLine(source, a);
    FirstLine(source, b);
    assert Text.Split(rest, '\n')[0] == a == b;
  }

  lemma FirstLine(source: string, id: string)
    requires Catalogs.SafeId(id) && Marked(source, id)
    ensures Text.Split(source[|MANAGED_BY|..], '\n')[0] == id
  {
    var rest, tail := source[|MANAGED_BY|..], source[|Mark(id)|..];
    assert source == Mark(id) + tail;
    assert rest == id + ['\n'] + tail;
    Text.SplitOne(id, '\n');
    Text.SplitAt(id, '\n', tail);
  }

  // ---- plans ----

  datatype Request = Request(operation: Operation, appId: string, instanceId: string, parameters: map<string, string>)

  datatype Capabilities = Capabilities(version: string, list: bool, install: bool, remove: bool)

  const FIFTEEN_MINUTES: nat := 900

  // What every stored plan promises, whoever made it and whatever happened since.
  ghost predicate Sincere(plan: Plan) {
    && Catalogs.SafeId(plan.instanceId)
    && plan.digest == PlanDigestOf(plan)
    && plan.expiresAt == plan.createdAt + FIFTEEN_MINUTES
    && !plan.operation.Other?
    && (plan.operation.Install? || plan.operation.Update? ==>
          && plan.resources != [] && Distinct(Names(plan.resources))
          && forall r :: r in plan.resources ==> Marked(r.content, plan.instanceId) && r.sha == Sha256(r.content))
  }

  // The directories of a plan lie strictly below approved roots.
  ghost predicate Approved(roots: map<string, Paths.Root>, dirs: seq<Directory>) {
    forall d :: d in dirs ==>
      && d.rootId in roots && Paths.ResolveAccepts(d.relativePath)
      && d.agentPath == Paths.Below(Paths.Clean(roots[d.rootId].agentPath), d.relativePath)
      && d.hostPath == Paths.Below(Paths.Clean(roots[d.rootId].hostPath), d.relativePath)
  }

  class Planner {
    const engine: Engine
    const catalog: map<string, Catalogs.App>
    // Reading and executing a template, and the security backend's mount suffix; either may
    // fail.
    const body: (string, string, string, map<string, string>, seq<Directory>) -> Option<string>
    const mountSuffix: (string, bool) -> Option<string>

    constructor (
      engine: Engine, catalog: map<string, Catalogs.App>,
      body: (string, string, string, map<string, string>, seq<Directory>) -> Option<string>,
      mountSuffix: (string, bool) -> Option<string>)
      requires forall id :: id in catalog ==> Catalogs.Valid(catalog[id]) && catalog[id].id == id
      ensures this.engine == engine && this.catalog == catalog && Ready()
    {
      this.engine, this.catalog, this.body, this.mountSuffix := engine, catalog, body, mountSuffix;
    }

    // The loaded catalog holds validated applications under their own ids.
    ghost predicate Ready() {
      forall id :: id in catalog ==> Catalogs.Valid(catalog[id]) && catalog[id].id == id
    }

    // The version Podman reports, and what its profile allows when the listing probe works.
    method DiscoverCapabilities() returns (caps: Option<Capabilities>)
      modifies engine.host`faults, engine.host`said
      ensures caps.Some? ==> var v := engine.host.podmanVersion; var profile := Versions.ProfileForVersion(v);
        caps.value == if caps.value.list then Capabilities(v, true, profile.install, profile.remove)
          else Capabilities(v, false, false, false)
      ensures engine.host.faults >= old(engine.host.faults)
      ensures engine.host.faults == old(engine.host.faults) ==> caps.Some? && caps.value.list
    {
      var e, version := engine.host.Version();
      if e.Some? {
        return None;
      }
      var profile := Versions.ProfileForVersion(version);
      var unlisted, _ := engine.host.ListQuadlets();
      caps := if unlisted.None? then Some(Capabilities(version, true, profile.install, profile.remove))
        else Some(Capabilities(version, false, false, false));
    }

    // The application a request is about: the one it names, or its instance's own.
    ghost function AppIdOf(r: Request, previous: Option<Instance>): string {
      if r.appId == "" && previous.Some? then previous.value.catalogId else r.appId
    }

    // When a request may be planned at all.
    ghost predicate Admissible(r: Request, records: map<string, Instance>, podman: string) {
      var previous := Known(records, r.instanceId);
      var appId := AppIdOf(r, previous);
      && !r.operation.Other? && Catalogs.SafeId(r.instanceId)
      && (if r.operation.Install? then previous.None? || previous.value.removedAt.Some? else previous.Some?)
      && (previous.Some? ==> appId == previous.value.catalogId)
      && appId in catalog
      && Versions.IsSupportedVersion(podman)
      && Versions.VersionAtLeast(podman, catalog[appId].minPodmanVersion)
    }

    // The checks before any planning: the request's shape, the instance it names, the
    // application, and the Podman it runs on. A supported Podman always has the Quadlet API.
    method Admit(r: Request) returns (e: Option<Error>, previous: Option<Instance>, app: Option<Catalogs.App>)
      modifies engine.host`faults, engine.host`said
      ensures e.None? ==> Admissible(r, engine.host.records, engine.host.podmanVersion)
      ensures e.None? ==> previous == Known(engine.host.records, r.instanceId)
      ensures e.None? ==> AppIdOf(r, previous) in catalog && app == Some(catalog[AppIdOf(r, previous)])
      ensures e.Some? && engine.host.faults == old(engine.host.faults) ==>
        !Admissible(r, engine.host.records, engine.host.podmanVersion)
      ensures engine.host.faults >= old(engine.host.faults)
    {
      hide Versions.VersionAtLeast;
      previous, app := None, None;
      var safe := Catalogs.IsSafeId(r.instanceId);
      if r.operation.Other? || !safe {
        return Some(RequestRefused("operation or instance id")), None, None;
      }
      var read, found := engine.host.GetInstance(r.instanceId);
      if read == Some(StateUnreadable) {
        return read, None, None;
      }
      previous := found;
      if r.operation.Install? && previous.Some? && previous.value.removedAt.None? {
        return Some(RequestRefused("already exists")), previous, None;
      }
      if !r.operation.Install? && previous.None? {
        return Some(RequestRefused("not managed")), previous, None;
      }
      var appId := r.appId;
      if previous.Some? {
        if appId == "" {
          appId := previous.value.catalogId;
        }
        if appId != previous.value.catalogId {
          return Some(RequestRefused("belongs to another application")), previous, None;
        }
      }
      if appId !in catalog {
        return Some(RequestRefused("unknown application")), previous, None;
      }
      app := Some(catalog[appId]);
      var caps := DiscoverCapabilities();
      if caps.None? || !Versions.IsSupportedVersion(caps.value.version) {
        return Some(RequestRefused("unsupported Podman")), previous, app;
      }
      Versions.SupportImpliesQuadlets(engine.host.podmanVersion);
      if !caps.value.list || !caps.value.install || !caps.value.remove {
        return Some(RequestRefused("Quadlet API unavailable")), previous, app;
      }
      if !Versions.VersionAtLeast(caps.value.version, app.value.minPodmanVersion) {
        return Some(RequestRefused("Podman below the application's minimum")), previous, app;
      }
      e := None;
    }

    // The directory a declaration stands for: below an approved root, at the path the
    // parameters give.
    ghost function ResolvedDir(d: Catalogs.DirectorySpec, params: map<string, string>): Option<Directory> {
      if d.rootId !in engine.roots then None
      else
        var rel := if d.subpathInput in params then params[d.subpathInput] else "";
        match (Paths.Resolve(engine.roots[d.rootId], rel), mountSuffix(d.securityIntent, d.readOnly))
        case (Some(paths), Some(suffix)) =>
          Some(Directory(
            d.name, d.rootId, rel, paths.1, paths.0, d.containerPath, d.readOnly, d.securityIntent, suffix))
        case _ => None
    }

    ghost predicate DirsOk(app: Catalogs.App, params: map<string, string>) {
      forall i :: 0 <= i < |app.directories| ==> ResolvedDir(app.directories[i], params).Some?
    }

    ghost predicate AreDirs(app: Catalogs.App, params: map<string, string>, dirs: seq<Directory>) {
      |dirs| == |app.directories| &&
      forall i :: 0 <= i < |dirs| ==> ResolvedDir(app.directories[i], params) == Some(dirs[i])
    }

    method ResolveDirs(app: Catalogs.App, params: map<string, string>) returns (dirs: Option<seq<Directory>>)
      ensures dirs.Some? <==> DirsOk(app, params)
      ensures dirs.Some? ==> AreDirs(app, params, dirs.value) && Approved(engine.roots, dirs.value)
    {
      hide Paths.Resolve;
      var o: seq<Directory> := [];
      for i := 0 to |app.directories|
        invariant |o| == i && forall j :: 0 <= j < i ==> ResolvedDir(app.directories[j], params) == Some(o[j])
        invariant Approved(engine.roots, o)
      {
        var d := app.directories[i];
        if d.rootId !in engine.roots {
          return None;
        }
        var rel := if d.subpathInput in params then params[d.subpathInput] else "";
        var found := Paths.Resolve(engine.roots[d.rootId], rel);
        if found.None? {
          return None;
        }
        var suffix := mountSuffix(d.securityIntent, d.readOnly);
        if suffix.None? {
          return None;
        }
        var (agent, host) := found.value;
        DirIsApproved(d, params);
        o := o + [Directory(
          d.name, d.rootId, rel, host, agent, d.containerPath, d.readOnly, d.securityIntent, suffix.value)];
      }
      dirs := Some(o);
    }

    lemma DirIsApproved(d: Catalogs.DirectorySpec, params: map<string, string>)
      requires ResolvedDir(d, params).Some?
      ensures Approved(engine.roots, [ResolvedDir(d, params).value])
    {
      Paths.ResolveIsContained(engine.roots[d.rootId], ResolvedDir(d, params).value.relativePath);
    }

    // Every template can be read and executed for these directories.
    ghost predicate BodiesOk(app: Catalogs.App, id: string, params: map<string, string>, dirs: seq<Directory>) {
      forall i :: 0 <= i < |app.resources| ==> body(app.id, app.resources[i].templateName, id, params, dirs).Some?
    }

    // One resource of an application, rendered for an instance that may already have it: the
    // header and what its template makes of these parameters and directories.
    ghost predicate RenderedFor(
      app: Catalogs.App, id: string, params: map<string, string>, dirs: seq<Directory>, previous: Option<Instance>,
      spec: Catalogs.ResourceSpec, r: Rendered)
    {
      && r.name == spec.name && r.start == spec.start
      && body(app.id, spec.templateName, id, params, dirs).Some?
      && r.content == Header(id, app) + body(app.id, spec.templateName, id, params, dirs).value
      && r.sha == Sha256(r.content)
      && (if previous.Some? && r.name in previous.value.resources then
            var was := previous.value.resources[r.name];
            r.previousSha == Some(was.sha) && r.unit == was.unit
          else r.previousSha.None? && r.unit == NoUnit)
    }

    method RenderAll(
      app: Catalogs.App, id: string, params: map<string, string>, dirs: seq<Directory>, previous: Option<Instance>)
      returns (rs: Option<seq<Rendered>>)
      ensures rs.Some? <==> BodiesOk(app, id, params, dirs)
      ensures rs.Some? ==> |rs.value| == |app.resources|
      ensures rs.Some? ==> forall i :: 0 <= i < |rs.value| ==>
        RenderedFor(app, id, params, dirs, previous, app.resources[i], rs.value[i])
    {
      var o: seq<Rendered> := [];
      for i := 0 to |app.resources|
        invariant |o| == i
        invariant forall j :: 0 <= j < i ==> body(app.id, app.resources[j].templateName, id, params, dirs).Some?
        invariant forall j :: 0 <= j < i ==> RenderedFor(app, id, params, dirs, previous, app.resources[j], o[j])
      {
        var spec := app.resources[i];
        var text := body(app.id, spec.templateName, id, params, dirs);
        if text.None? {
          return None;
        }
        var content := Header(id, app) + text.value;
        var had := if previous.Some? && spec.name in previous.value.resources
          then Some(previous.value.resources[spec.name]) else None;
        o := o + [Rendered(
          spec.name, if had.Some? then had.value.unit else NoUnit, content, spec.start, Sha256(content),
          if had.Some? then Some(had.value.sha) else None)];
      }
      rs := Some(o);
    }

    // A removal plan lists what the record holds, in order of name.
    ghost predicate ListsRecord(record: Instance, names: seq<string>, rs: seq<Rendered>) {
      && Lists(names, record.resources.Keys) && |rs| == |names|
      && forall i :: 0 <= i < |rs| ==>
           names[i] in record.resources && rs[i] == Listed(record.resources[names[i]], names[i])
    }

    ghost function Listed(x: ResourceState, name: string): Rendered {
      Rendered(name, x.unit, x.source, false, x.sha, Some(x.sha))
    }

    method RemovalResources(record: Instance) returns (rs: seq<Rendered>, ghost names: seq<string>)
      ensures ListsRecord(record, names, rs)
    {
      var sorted := SortedKeys(record.resources.Keys);
      rs, names := [], sorted;
      for i := 0 to |sorted|
        invariant |rs| == i
        invariant forall j :: 0 <= j < i ==>
          sorted[j] in record.resources && rs[j] == Listed(record.resources[sorted[j]], sorted[j])
      {
        assert sorted[i] in sorted;
        var x := record.resources[sorted[i]];
        rs := rs + [Rendered(sorted[i], x.unit, x.source, false, x.sha, Some(x.sha))];
      }
    }

    // The parameters a request is planned with: without any of its own, an update or remove
    // takes the record's.
    ghost function ParametersOf(r: Request, previous: Option<Instance>): map<string, string> {
      if !r.operation.Install? && r.parameters == map[] && previous.Some? then previous.value.parameters
      else r.parameters
    }

    // The rest of what a plan needs: parameters that resolve and, unless it is a removal,
    // directories below approved roots and templates that execute.
    ghost predicate Plannable(r: Request, records: map<string, Instance>) {
      var previous := Known(records, r.instanceId);
      && AppIdOf(r, previous) in catalog && var app := catalog[AppIdOf(r, previous)];
      && var params := Catalogs.Resolved(app.inputs, ParametersOf(r, previous));
      && params.Some? && (r.operation.Remove? || CanLay(r, app, params.value))
    }

    ghost predicate CanLay(r: Request, app: Catalogs.App, params: map<string, string>) {
      DirsOk(app, params) && forall dirs :: AreDirs(app, params, dirs) ==> BodiesOk(app, r.instanceId, params, dirs)
    }

    // What a stored plan answers its request with.
    ghost predicate Answers(plan: Plan, r: Request, records: map<string, Instance>) {
      var previous := Known(records, r.instanceId);
      && plan.operation == r.operation && plan.instanceId == r.instanceId
      && plan.appId in catalog && var app := catalog[plan.appId];
      && plan.catalogVersion == app.version
      && plan.appId == AppIdOf(r, previous)
      && Catalogs.Resolved(app.inputs, ParametersOf(r, previous)) == Some(plan.parameters)
      && IsLaid(r, previous, app, plan.parameters, plan.directories, plan.resources)
    }

    // A removal takes what the record holds; anything else has one directory below an
    // approved root for each declaration, and one rendered source for each resource.
    ghost predicate IsLaid(
      r: Request, previous: Option<Instance>, app: Catalogs.App, params: map<string, string>, dirs: seq<Directory>,
      rs: seq<Rendered>)
    {
      if r.operation.Remove? then
        && previous.Some? && dirs == previous.value.directories
        && exists names :: ListsRecord(previous.value, names, rs)
      else
        && Approved(engine.roots, dirs) && AreDirs(app, params, dirs) && |rs| == |app.resources|
        && forall i :: 0 <= i < |rs| ==>
             RenderedFor(app, r.instanceId, params, dirs, previous, app.resources[i], rs[i])
    }

    // Fill in directories and resources for an admitted request.
    method Lay(r: Request, previous: Option<Instance>, app: Catalogs.App, params: map<string, string>)
      returns (dirs: seq<Directory>, rs: seq<Rendered>, ok: bool)
      requires Catalogs.Valid(app) && (r.operation.Remove? ==> previous.Some?)
      ensures ok ==> IsLaid(r, previous, app, params, dirs, rs)
      ensures ok <==> r.operation.Remove? || CanLay(r, app, params)
    {
      dirs, rs, ok := [], [], false;
      if r.operation.Remove? {
        ghost var names;
        dirs := previous.value.directories;
        rs, names := RemovalResources(previous.value);
        return dirs, rs, true;
      }
      var resolved := ResolveDirs(app, params);
      if resolved.None? {
        return;
      }
      assert forall other :: AreDirs(app, params, other) ==> other == resolved.value;
      var rendered := RenderAll(app, r.instanceId, params, resolved.value, previous);
      if rendered.None? {
        return;
      }
      return resolved.value, rendered.value, true;
    }

    // The drift a look at an active instance finds that cannot read some of its sources, in
    // order of name; none for an install or a removed instance.
    ghost predicate Records(
      drift: seq<Drift>, r: Request, records: map<string, Instance>, store: map<string, string>, missed: set<string>)
    {
      if r.operation.Install? || r.instanceId !in records || records[r.instanceId].removedAt.Some? then drift == []
      else Reported(records[r.instanceId], store, missed, drift)
    }

    method NoteDrift(r: Request, previous: Option<Instance>) returns (drift: seq<Drift>, ghost missed: set<string>)
      requires previous == Known(engine.host.records, r.instanceId)
      modifies engine.host`faults, engine.host`said
      ensures NoneMissed(drift, r, engine.host.records, engine.host.store)
      ensures Records(drift, r, engine.host.records, engine.host.store, missed)
      ensures engine.host.faults >= old(engine.host.faults)
      ensures engine.host.faults == old(engine.host.faults) ==> missed == {}
    {
      hide Reported, DriftFree;
      drift, missed := [], {};
      if previous.Some? && previous.value.removedAt.None? && !r.operation.Install? {
        drift, missed := engine.DetectDrift(previous.value);
      }
    }

    // Whatever went wrong, an empty report means that an active instance has no drift.
    ghost predicate NoneMissed(
      drift: seq<Drift>, r: Request, records: map<string, Instance>, store: map<string, string>)
    {
      !r.operation.Install? && drift == [] && r.instanceId in records && records[r.instanceId].removedAt.None? ==>
        DriftFree(records[r.instanceId], store)
    }

    // Put a plan together: dated now, and digested as it is.
    method Draft(
      r: Request, app: Catalogs.App, params: map<string, string>, dirs: seq<Directory>, rs: seq<Rendered>,
      drift: seq<Drift>)
      returns (plan: Plan)
      modifies engine.host`clock
      ensures plan == Plan(
        plan.id, PlanDigestOf(plan), r.operation, app.id, app.version, r.instanceId, params, dirs, rs, drift,
        engine.host.clock, engine.host.clock + FIFTEEN_MINUTES)
      ensures engine.host.clock >= old(engine.host.clock)
    {
      var now := engine.host.Clock();
      var id: string := *;
      var draft := Plan(
        id, NoDigest, r.operation, app.id, app.version, r.instanceId, params, dirs, rs, drift, now,
        now + FIFTEEN_MINUTES);
      plan := draft.(digest := PlanDigestOf(draft));
      assert plan.(digest := NoDigest) == draft;
    }

    // Turn a request into a stored plan. Drift of an active instance is recorded in the plan.
    method CreatePlan(r: Request) returns (e: Option<Error>, plan: Option<Plan>, ghost missed: set<string>)
      requires Ready()
      modifies engine.host`plans, engine.host`faults, engine.host`said, engine.host`clock
      ensures e.Some? ==> engine.host.plans == old(engine.host.plans)
      ensures e.None? ==> plan.Some? && engine.host.plans == old(engine.host.plans)[plan.value.id := plan.value]
      ensures e.None? ==> Admissible(r, engine.host.records, engine.host.podmanVersion)
      ensures engine.host.faults == old(engine.host.faults) ==>
        (e.None? <==>
          Admissible(r, engine.host.records, engine.host.podmanVersion) && Plannable(r, engine.host.records))
      ensures e.None? ==> Sincere(plan.value) && Answers(plan.value, r, engine.host.records)
      ensures e.None? ==> old(engine.host.clock) <= plan.value.createdAt <= engine.host.clock
      ensures engine.host.clock >= old(engine.host.clock) && engine.host.faults >= old(engine.host.faults)
      ensures e.None? ==> NoneMissed(plan.value.drift, r, engine.host.records, engine.host.store)
      ensures e.None? ==> Records(plan.value.drift, r, engine.host.records, engine.host.store, missed)
      ensures engine.host.faults == old(engine.host.faults) ==> missed == {}
    {
      hide *;
      plan, missed := None, {};
      var previous, found;
      e, previous, found := Admit(r);
      if e.Some? {
        return;
      }
      var app := found.value;
      var params := r.parameters;
      if !r.operation.Install? && params == map[] && previous.Some? {
        params := previous.value.parameters;
      }
      AdmittedIsPlannableIff(r, engine.host.records, engine.host.podmanVersion, previous, app, params);
      var resolved := Catalogs.ResolveParameters(app.inputs, params);
      if resolved.None? {
        return Some(RequestRefused("parameters")), None, {};
      }
      var dirs, rs, ok := Lay(r, previous, app, resolved.value);
      if !ok {
        return Some(RequestRefused("directories or templates")), None, {};
      }
      var drift;
      drift, missed := NoteDrift(r, previous);
      var final := Draft(r, app, resolved.value, dirs, rs, drift);
      LaidOutAnswers(r, engine.host.records, engine.host.podmanVersion, previous, app, params, final);
      e := engine.host.SavePlan(final);
      plan := Some(final);
    }

    // An admitted request is for an application of the catalog, and can be planned as Lay does.
    lemma AdmittedIsPlannableIff(
      r: Request, records: map<string, Instance>, podman: string, previous: Option<Instance>, app: Catalogs.App,
      params: map<string, string>)
      requires Ready() && Admissible(r, records, podman) && previous == Known(records, r.instanceId)
      requires AppIdOf(r, previous) in catalog && app == catalog[AppIdOf(r, previous)]
      requires params ==
        if !r.operation.Install? && r.parameters == map[] && previous.Some? then previous.value.parameters
        else r.parameters
      ensures Catalogs.Valid(app) && (r.operation.Remove? ==> previous.Some?)
      ensures Plannable(r, records) <==>
        var resolved := Catalogs.Resolved(app.inputs, params);
        resolved.Some? && (r.operation.Remove? || CanLay(r, app, resolved.value))
    {
      hide Catalogs.Valid, Catalogs.Resolved, CanLay, Versions.IsSupportedVersion, Versions.VersionAtLeast;
    }

    // What Lay filled in makes a plan that answers the request, and a sincere one.
    lemma LaidOutAnswers(
      r: Request, records: map<string, Instance>, podman: string, previous: Option<Instance>, app: Catalogs.App,
      params: map<string, string>, plan: Plan)
      requires Ready() && Admissible(r, records, podman) && previous == Known(records, r.instanceId)
      requires AppIdOf(r, previous) in catalog && app == catalog[AppIdOf(r, previous)]
      requires params ==
        if !r.operation.Install? && r.parameters == map[] && previous.Some? then previous.value.parameters
        else r.parameters
      requires plan == Plan(
        plan.id, PlanDigestOf(plan), r.operation, app.id, app.version, r.instanceId, plan.parameters,
        plan.directories, plan.resources, plan.drift, plan.createdAt, plan.createdAt + FIFTEEN_MINUTES)
      requires Catalogs.Resolved(app.inputs, params) == Some(plan.parameters)
      requires IsLaid(r, previous, app, plan.parameters, plan.directories, plan.resources)
      ensures Sincere(plan) && Answers(plan, r, records)
    {
      hide Catalogs.Valid, RenderedFor, ListsRecord, Approved, Distinct, Marked, Catalogs.Resolved, AreDirs, Names;
      hide Versions.IsSupportedVersion, Versions.VersionAtLeast, Catalogs.SafeId;
      if !r.operation.Remove? {
        RenderedIsSincere(app, r.instanceId, plan.parameters, plan.directories, previous, plan.resources);
      }
    }

    lemma RenderedIsSincere(
      app: Catalogs.App, id: string, params: map<string, string>, dirs: seq<Directory>, previous: Option<Instance>,
      rs: seq<Rendered>)
      requires Catalogs.Valid(app) && |rs| == |app.resources|
      requires forall i :: 0 <= i < |rs| ==> RenderedFor(app, id, params, dirs, previous, app.resources[i], rs[i])
      ensures rs != [] && Distinct(Names(rs))
      ensures forall r :: r in rs ==> Marked(r.content, id) && r.sha == Sha256(r.content)
    {
      forall i, j | 0 <= i < j < |rs|
        ensures Names(rs)[i] != Names(rs)[j]
      {
        assert app.resources[i].name != app.resources[j].name;
      }
      forall r | r in rs
        ensures Marked(r.content, id) && r.sha == Sha256(r.content)
      {
        var i :| 0 <= i < |rs| && rs[i] == r;
        assert Mark(id) <= Header(id, app) <= r.content;
      }
    }
  }

  // The header says who manages the source, for which instance, and from which version of
  // which application: one line each.
  lemma HeaderLines(id: string, app: Catalogs.App, text: string)
    requires Catalogs.SafeId(id) && Catalogs.SafeId(app.id) && '\n' !in app.version
    ensures var lines := Text.Split(Header(id, app) + text, '\n');
      && |lines| >= 4 && lines[0] == "# Managed-by: Home Server Deployer"
      && lines[1] == "# Deployer-Instance: " + id
      && lines[2] == "# Deployer-Catalog: " + app.id + "@" + app.version
      && Text.Join(lines[3..], '\n') == text
  {
    var first, second, third := MANAGER, FOR_INSTANCE + id, FROM_CATALOG + app.id + "@" + app.version;
    LinesArePlain(id, app);
    assert Header(id, app) + text == first + ['\n'] + (second + ['\n'] + (third + ['\n'] + text));
    ThreeLines(first, second, third, text);
    Text.JoinSplit(text, '\n');
    hide Text.Split, Text.Join, Header;
    var lines := Text.Split(Header(id, app) + text, '\n');
    assert lines[3..] == Text.Split(text, '\n');
  }

  lemma LinesArePlain(id: string, app: Catalogs.App)
    requires Catalogs.SafeId(id) && Catalogs.SafeId(app.id) && '\n' !in app.version
    ensures '\n' !in MANAGER && '\n' !in FOR_INSTANCE + id && '\n' !in FROM_CATALOG + app.id + "@" + app.version
  {
  }

  lemma ThreeLines(first: string, second: string, third: string, text: string)
    requires '\n' !in first && '\n' !in second && '\n' !in third
    ensures Text.Split(first + ['\n'] + (second + ['\n'] + (third + ['\n'] + text)), '\n') ==
      [first, second, third] + Text.Split(text, '\n')
  {
    hide Text.Split;
    Text.SplitAt(third, '\n', text);
    Text.SplitAt(second, '\n', third + ['\n'] + text);
    Text.SplitAt(first, '\n', second + ['\n'] + (third + ['\n'] + text));
    Text.SplitOne(first, '\n');
    Text.SplitOne(second, '\n');
    Text.SplitOne(third, '\n');
  }

  // A plan is for its instance's own application, whether the request names it or not.
  lemma PlanIsForItsInstance(planner: Planner, r: Request, records: map<string, Instance>, podman: string, plan: Plan)
    requires planner.Answers(plan, r, records) && planner.Admissible(r, records, podman)
    ensures r.instanceId in records ==>
      plan.appId == records[r.instanceId].catalogId && (r.appId == "" || r.appId == plan.appId)
    ensures r.instanceId !in records ==> r.operation.Install? && plan.appId == r.appId
  {
    hide Catalogs.Resolved, Planner.IsLaid;
  }

  // An update or remove without parameters of its own plans with exactly those on record, as
  // long as the application still resolves them; and that it does if and only if every input
  // once left to its default has one that can be supplied.
  lemma PlansWithParametersOnRecord(
    planner: Planner, r: Request, records: map<string, Instance>, supplied: map<string, string>)
    requires planner.Ready() && !r.operation.Install? && r.parameters == map[] && r.instanceId in records
    requires var record := records[r.instanceId];
      && record.catalogId in planner.catalog && (r.appId == "" || r.appId == record.catalogId)
      && Catalogs.Resolved(planner.catalog[record.catalogId].inputs, supplied) == Some(record.parameters)
    ensures forall plan :: planner.Answers(plan, r, records) ==> plan.parameters == records[r.instanceId].parameters
    ensures var inputs := planner.catalog[records[r.instanceId].catalogId].inputs;
      var stable := forall i :: 0 <= i < |inputs| && inputs[i].name !in supplied ==> Catalogs.Replayable(inputs[i]);
      && (!stable ==> !planner.Plannable(r, records))
      && (stable && r.operation.Remove? ==> planner.Plannable(r, records))
  {
    hide Catalogs.Resolved, Planner.IsLaid, Planner.CanLay, Catalogs.Replayable;
    var app := planner.catalog[records[r.instanceId].catalogId];
    assert Catalogs.UniqueInputs(app.inputs);
    Catalogs.ReplanningIsStable(app.inputs, supplied);
  }

  // Of the names of a loaded application, exactly those with a backslash stop its plans from
  // fitting anywhere.
  lemma LoadedNamesFit(app: Catalogs.App, i: nat)
    requires Catalogs.Valid(app) && i < |app.resources|
    ensures ClientAccepts(app.resources[i].name) <==> '\\' !in app.resources[i].name
  {
    hide ClientAccepts, ValidQuadletName;
    assert Catalogs.ValidResource(app.resources[i]);
    NameChecksDiffer(app.resources[i].name);
  }

  // The record under an id, if there is one.
  function Known(records: map<string, Instance>, id: string): Option<Instance> {
    if id in records then Some(records[id]) else None
  }
}

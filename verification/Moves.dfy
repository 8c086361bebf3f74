// The loops of the transaction engine, one method each.
//
// Forward loops stop at the first failure and report how far they came; rollback loops go
// on and collect every failure. Each states its exact effect on the machine, that the
// journal stays good, and what its failures say about the faults that occurred.
module Moves {
  import opened QuadletNames
  import opened Model
  import opened Text
  import opened Paths
  import opened Directories
  import opened Layouts
  import opened Hosts
  import opened Journal

  ghost predicate Underway(host: Host, c: Context)
    reads host`trace, host`records, host`store, host`loaded, host`running, host`phase
  {
    && Good(c, host.trace)
    && Linked(host.generates, c.start, host.trace, host.Now())
    && host.records == c.start.records
    && Between(c, host.store)
    && Untouched(c, host.running)
    && (host.phase.Forward? ==> RollbackSourcesOk(host.trace) && Rollback !in ReloadPhases(host.trace))
  }

  function UnitSet(units: seq<Unit>): set<Unit> {
    set u | u in units
  }

  function Services(names: seq<string>): set<Unit> {
    set n | n in names :: Service(n)
  }

  // Every source of a is in b, unchanged.
  ghost predicate Within(a: map<string, string>, b: map<string, string>) {
    forall n :: n in a ==> n in b && b[n] == a[n]
  }

  // after is before with exactly the names in gone taken out.
  ghost predicate Without(before: map<string, string>, gone: seq<string>, after: map<string, string>) {
    && Within(after, before)
    && (forall n :: n in before && n !in gone ==> n in after)
    && (forall n :: n in gone ==> n in before && n !in after)
  }

  lemma OneMore(rs: seq<Rendered>, i: nat)
    requires i < |rs|
    ensures Names(rs[..i + 1]) == Names(rs[..i]) + [rs[i].name]
    ensures SourceMap(rs[..i + 1]) == SourceMap(rs[..i])[rs[i].name := rs[i].content]
    ensures SourceMap(rs[..i]).Keys == NameSet(Names(rs[..i]))
  {
    assert rs[..i + 1][..i] == rs[..i];
  }

  lemma DistinctPrefix(rs: seq<Rendered>, k: nat)
    requires k <= |rs| && Distinct(Names(rs))
    ensures Distinct(Names(rs[..k])) && forall i :: k <= i < |rs| ==> Names(rs)[i] !in Names(rs[..k])
  {
    assert Names(rs[..k]) == Names(rs)[..k];
    hide Names;
  }

  lemma {:induction false} SourceMapAt(rs: seq<Rendered>, i: nat)
    requires i < |rs| && Distinct(Names(rs))
    ensures rs[i].name in SourceMap(rs) && SourceMap(rs)[rs[i].name] == rs[i].content
  {
    var last := |rs| - 1;
    assert rs[i].name == Names(rs)[i] && rs[last].name == Names(rs)[last];
    assert SourceMap(rs) == SourceMap(rs[..last])[rs[last].name := rs[last].content];
    if i < last {
      DistinctPrefix(rs, last);
      hide SourceMap, Names;
      SourceMapAt(rs[..last], i);
      assert rs[..last][i] == rs[i] && Names(rs)[i] != Names(rs)[last];
    }
  }

  lemma AddOne(a: map<string, string>, b: map<string, string>, name: string, source: string)
    ensures (a + b)[name := source] == a + b[name := source]
  {
  }

  // ---- single calls, with their place in the journal settled ----

  lemma Append(host: Host, c: Context, tr: seq<Step>)
    requires |host.trace| == |tr| + 1 && host.trace[..|tr|] == tr
    requires var s := host.trace[|tr|];
      && Good(c, tr) && StepFits(c, tr, s)
      && Linked(host.generates, c.start, tr, s.before) && Obeys(host.generates, s) && s.after == host.Now()
    ensures var s := host.trace[|tr|];
      && Good(c, host.trace) && Linked(host.generates, c.start, host.trace, host.Now())
      && (StopsOk(host.trace) <==> StopsOk(tr) && (s.call.StopUnit? ==> s.ok))
      && (RollbackSourcesOk(host.trace) <==>
            RollbackSourcesOk(tr) && (s.phase.Rollback? && (s.call.InstallSource? || s.call.RemoveSource?) ==> s.ok))
      && ReloadPhases(host.trace) == ReloadPhases(tr) + (if s.call.Reload? then {s.phase} else {})
      && LogOf(host.trace) == Noted(LogOf(tr), s.phase, s.call, s.ok)
      && Attempts(host.trace) == Attempts(tr) + (if s.phase.Rollback? then {s.call} else {})
      && Failures(host.trace) == Failures(tr) + (if s.phase.Rollback? && !s.ok then {s.call} else {})
  {
    hide *;
    var s := host.trace[|tr|];
    assert host.trace == tr + [s];
    Extend(c, tr, s);
    LinkOne(host.generates, c.start, tr, s);
  }

  // What a call adds to the failures of a rollback.
  function FailedNow(phase: Phase, e: Option<Error>, call: Call): set<Call> {
    if phase.Rollback? && e.Some? then {call} else {}
  }

  function RunCall(u: Unit, restart: bool): Call {
    if restart then RestartUnit(u) else StartUnit(u)
  }

  // The call was made, and if it failed that is the error.
  ghost predicate RanOnce(before: Log, after: Log, phase: Phase, call: Call, e: Option<Error>, failed: Error) {
    after == Noted(before, phase, call, true) || (e == Some(failed) && after == Noted(before, phase, call, false))
  }

  // ---- sequences of calls ----

  function Stops(units: seq<Unit>): seq<Call> {
    if units == [] then [] else Stops(units[..|units| - 1]) + [StopUnit(units[|units| - 1])]
  }

  function Runs(units: seq<Unit>, restart: bool): seq<Call> {
    if units == [] then [] else Runs(units[..|units| - 1], restart) + [RunCall(units[|units| - 1], restart)]
  }

  function Removals(names: seq<string>): seq<Call> {
    if names == [] then [] else Removals(names[..|names| - 1]) + [RemoveSource(names[|names| - 1], false)]
  }

  function Installs(rs: seq<Rendered>): seq<Call> {
    if rs == [] then [] else
      var r := rs[|rs| - 1];
      Installs(rs[..|rs| - 1]) + [InstallSource(r.name, r.content)]
  }

  function Reinstalls(names: seq<string>, snapshot: map<string, string>): seq<Call> {
    if names == [] then []
    else
      var last := names[|names| - 1];
      Reinstalls(names[..|names| - 1], snapshot) +
        [InstallSource(last, if last in snapshot then snapshot[last] else "")]
  }

  method InstallOne(host: Host, ghost c: Context, name: string, source: string) returns (e: Option<Error>)
    requires Underway(host, c)
    requires (name, source) in c.offers || Original(c, name, source)
    modifies host`store, host`trace, host`faults, host`said
    ensures Underway(host, c)
    ensures ReloadPhases(host.trace) == ReloadPhases(old(host.trace))
    ensures LogOf(host.trace) == Noted(LogOf(old(host.trace)), host.phase, InstallSource(name, source), e.None?)
    ensures host.said == old(host.said) + if e.Some? then [e.value] else []
    ensures Failures(host.trace) == Failures(old(host.trace)) + FailedNow(host.phase, e, InstallSource(name, source))
    ensures Failures(old(host.trace)) <= Failures(host.trace)
    ensures host.phase.Rollback? && e.Some? ==> InstallSource(name, source) in Failures(host.trace)
    ensures Attempts(old(host.trace)) <= Attempts(host.trace)
    ensures e.None? ==> ClientAccepts(name) && name !in old(host.store) && host.store == old(host.store)[name := source]
    ensures e.Some? ==> e.value == SourceRefused(name) && host.store == old(host.store)
    ensures StopsOk(host.trace) == StopsOk(old(host.trace))
    ensures RollbackSourcesOk(host.trace) <==> RollbackSourcesOk(old(host.trace)) && (host.phase.Forward? || e.None?)
    ensures host.faults == old(host.faults) +
      if e.Some? && ClientAccepts(name) && name !in old(host.store) then 1 else 0
  {
    hide Good, Linked, Untouched, ClientAccepts, StopsOk, RollbackSourcesOk, ReloadPhases, Attempts, Failures, LogOf;
    ghost var tr := host.trace;
    e := host.InstallQuadlet(name, source);
    Append(host, c, tr);
  }

  method RemoveOne(host: Host, ghost c: Context, name: string, force: bool) returns (e: Option<Error>)
    requires Underway(host, c)
    requires name in c.own || name !in c.start.store
    requires force ==> Service(name) in Concerned(c)
    requires !force && c.controlled && StopsOk(host.trace) ==> Service(name) !in host.running
    modifies host`store, host`running, host`trace, host`faults, host`said
    ensures Underway(host, c)
    ensures ReloadPhases(host.trace) == ReloadPhases(old(host.trace))
    ensures LogOf(host.trace) == Noted(LogOf(old(host.trace)), host.phase, RemoveSource(name, force), e.None?)
    ensures host.said == old(host.said) + if e.Some? then [e.value] else []
    ensures Failures(host.trace) == Failures(old(host.trace)) + FailedNow(host.phase, e, RemoveSource(name, force))
    ensures Failures(old(host.trace)) <= Failures(host.trace)
    ensures host.phase.Rollback? && e.Some? ==> RemoveSource(name, force) in Failures(host.trace)
    ensures Attempts(old(host.trace)) <= Attempts(host.trace)
    ensures e.None? ==> name in old(host.store) && host.store == old(host.store) - {name}
    ensures e.None? && force ==> host.running == old(host.running) - {Service(name)}
    ensures !force ==> host.running == old(host.running)
    ensures e.Some? ==>
      e.value == SourceRefused(name) && host.store == old(host.store) && host.running == old(host.running)
    ensures StopsOk(host.trace) == StopsOk(old(host.trace))
    ensures RollbackSourcesOk(host.trace) <==> RollbackSourcesOk(old(host.trace)) && (host.phase.Forward? || e.None?)
    ensures e.None? ==> host.faults == old(host.faults)
    ensures e.Some? ==> old(host.faults) <= host.faults <= old(host.faults) + 1
    ensures e.Some? && ClientAccepts(name) && name in old(host.store) ==>
      force || (c.controlled && StopsOk(host.trace)) ==> host.faults == old(host.faults) + 1
  {
    hide Good, Linked, ClientAccepts, StopsOk, RollbackSourcesOk, ReloadPhases, Attempts, Failures, LogOf;
    ghost var tr := host.trace;
    e := host.RemoveQuadlet(name, force);
    Append(host, c, tr);
  }

  method StopOne(host: Host, ghost c: Context, u: Unit) returns (e: Option<Error>)
    requires Underway(host, c) && u in Concerned(c)
    modifies host`running, host`trace, host`faults, host`said
    ensures Underway(host, c)
    ensures ReloadPhases(host.trace) == ReloadPhases(old(host.trace))
    ensures LogOf(host.trace) == Noted(LogOf(old(host.trace)), host.phase, StopUnit(u), e.None?)
    ensures host.said == old(host.said) + if e.Some? then [e.value] else []
    ensures Failures(host.trace) == Failures(old(host.trace)) + FailedNow(host.phase, e, StopUnit(u))
    ensures Failures(old(host.trace)) <= Failures(host.trace)
    ensures host.phase.Rollback? && e.Some? ==> StopUnit(u) in Failures(host.trace)
    ensures Attempts(old(host.trace)) <= Attempts(host.trace)
    ensures e.None? ==> host.running == old(host.running) - {u}
    ensures e.Some? ==> host.running == old(host.running) || host.running == old(host.running) - {u}
    ensures e.Some? ==> e.value == UnitFailed(u)
    ensures StopsOk(host.trace) <==> StopsOk(old(host.trace)) && e.None?
    ensures RollbackSourcesOk(host.trace) == RollbackSourcesOk(old(host.trace))
    ensures e.None? ==> host.faults == old(host.faults)
    ensures e.Some? ==> old(host.faults) <= host.faults <= old(host.faults) + 1
    ensures e.Some? && host.CanRun(u) ==> host.faults == old(host.faults) + 1
  {
    hide Good, Linked, ClientAccepts, StopsOk, RollbackSourcesOk, ReloadPhases, Attempts, Failures, LogOf;
    ghost var tr := host.trace;
    e := host.Stop(u);
    Append(host, c, tr);
  }

  method ReloadOnce(host: Host, ghost c: Context) returns (e: Option<Error>)
    requires Underway(host, c) && host.phase !in ReloadPhases(host.trace)
    requires if host.phase.Forward? then host.store == c.target
      else RollbackSourcesOk(host.trace) ==> Returned(c.start.store, c.own, host.store)
    modifies host`loaded, host`trace, host`faults, host`said
    ensures Underway(host, c)
    ensures ReloadPhases(host.trace) == ReloadPhases(old(host.trace)) + {host.phase}
    ensures LogOf(host.trace) == Noted(LogOf(old(host.trace)), host.phase, Reload, e.None?)
    ensures host.said == old(host.said) + if e.Some? then [e.value] else []
    ensures Failures(host.trace) == Failures(old(host.trace)) + FailedNow(host.phase, e, Reload)
    ensures Attempts(old(host.trace)) <= Attempts(host.trace)
    ensures e.Some? ==> e.value == ReloadFailed
    ensures e.None? ==> host.loaded == host.store
    ensures e.Some? && host.phase.Rollback? ==> Reload in Failures(host.trace)
    ensures StopsOk(host.trace) == StopsOk(old(host.trace))
    ensures RollbackSourcesOk(host.trace) == RollbackSourcesOk(old(host.trace))
    ensures host.faults == old(host.faults) + if e.Some? then 1 else 0
  {
    hide Good, Linked, ClientAccepts, StopsOk, RollbackSourcesOk, ReloadPhases, Attempts, Failures, LogOf;
    ghost var tr := host.trace;
    e := host.DaemonReload();
    Append(host, c, tr);
  }

  method VerifyUnitActive(host: Host, u: Unit) returns (e: Option<Error>)
    modifies host`faults, host`said
    ensures e.None? ==> u in host.running
    ensures e.Some? ==> e.value == UnitFailed(u) || e.value == UnitNotActive(u)
    ensures e == Some(UnitNotActive(u)) ==> u !in host.running
    ensures host.said == old(host.said) + if e.Some? then [e.value] else []
    ensures e.Some? && u in host.running ==> host.faults > old(host.faults)
    ensures host.faults >= old(host.faults) && (e.None? ==> host.faults == old(host.faults))
  {
    var active;
    e, active := host.Status(u);
    if e.None? && !active {
      e := Some(UnitNotActive(u));
    }
  }

  lemma SameRecords(c: Context, v: View)
    requires v.records == c.start.records
    ensures HonestRecords(c, v)
  {
  }

  method RunOne(host: Host, ghost c: Context, u: Unit, restart: bool) returns (e: Option<Error>)
    requires Underway(host, c) && u in Concerned(c)
    modifies host`running, host`trace, host`faults, host`said
    ensures Underway(host, c)
    ensures ReloadPhases(host.trace) == ReloadPhases(old(host.trace))
    ensures LogOf(host.trace) == Noted(LogOf(old(host.trace)), host.phase, RunCall(u, restart), e.None?)
    ensures host.said == old(host.said) + if e.Some? then [e.value] else []
    ensures Failures(host.trace) == Failures(old(host.trace)) + FailedNow(host.phase, e, RunCall(u, restart))
    ensures Attempts(host.trace) ==
      Attempts(old(host.trace)) + if host.phase.Rollback? then {RunCall(u, restart)} else {}
    ensures SameElsewhere(old(host.running), host.running, u)
    ensures e.Some? ==> e.value == UnitFailed(u)
    ensures e.None? ==> host.CanRun(u) || (!restart && u in old(host.running))
    ensures u in old(host.running) && !restart ==> host.running == old(host.running)
    ensures u in host.running ==>
      host.UpToDate(u) || ((e.Some? || !restart) && SameAt(old(host.running), host.running, u))
    ensures StopsOk(host.trace) == StopsOk(old(host.trace))
    ensures RollbackSourcesOk(host.trace) == RollbackSourcesOk(old(host.trace))
    ensures host.faults >= old(host.faults)
    ensures host.CanRun(u) && (e.Some? || u !in host.running) ==> host.faults > old(host.faults)
    ensures e.None? && u in host.running ==> host.faults == old(host.faults)
  {
    hide Good, Linked, StopsOk, RollbackSourcesOk, ReloadPhases, Attempts, Failures, LogOf, Between, Runnable;
    hide HonestRecords, Noted;
    ghost var tr := host.trace;
    if restart {
      e := host.Restart(u);
    } else {
      e := host.Start(u);
    }
    SameRecords(c, host.Now());
    Append(host, c, tr);
  }

  // Start or restart u, then check that it came up.
  method RunAndVerify(host: Host, ghost c: Context, u: Unit, restart: bool) returns (e: Option<Error>)
    requires Underway(host, c) && u in Concerned(c)
    modifies host`running, host`trace, host`faults, host`said
    ensures Underway(host, c)
    ensures ReloadPhases(host.trace) == ReloadPhases(old(host.trace))
    ensures RanOnce(LogOf(old(host.trace)), LogOf(host.trace), host.phase, RunCall(u, restart), e, UnitFailed(u))
    ensures host.said == old(host.said) + if e.Some? then [e.value] else []
    ensures Failures(old(host.trace)) <= Failures(host.trace) && Attempts(old(host.trace)) <= Attempts(host.trace)
    ensures host.phase.Rollback? ==> RunCall(u, restart) in Attempts(host.trace)
    ensures host.phase.Rollback? && u in host.running ==>
      host.UpToDate(u) || RunCall(u, restart) in Failures(host.trace) || (!restart && u in old(host.running))
    ensures SameElsewhere(old(host.running), host.running, u)
    ensures e.Some? ==> e.value == UnitFailed(u) || e.value == UnitNotActive(u)
    ensures e.None? ==> u in host.running
    ensures e.None? && (restart || u !in old(host.running)) ==> host.UpToDate(u)
    ensures u in old(host.running) && !restart ==> host.running == old(host.running)
    ensures u in host.running ==> SameAt(old(host.running), host.running, u) || host.UpToDate(u)
    ensures StopsOk(host.trace) == StopsOk(old(host.trace))
    ensures RollbackSourcesOk(host.trace) == RollbackSourcesOk(old(host.trace))
    ensures host.faults >= old(host.faults)
    ensures e.None? ==> host.faults == old(host.faults)
    ensures e.Some? && host.CanRun(u) ==> host.faults > old(host.faults)
  {
    hide Underway, StopsOk, RollbackSourcesOk, ReloadPhases, Attempts, Failures, LogOf, Noted, SameElsewhere, Concerned;
    hide Runnable, RunCall;
    e := RunOne(host, c, u, restart);
    if e.None? {
      e := VerifyUnitActive(host, u);
    }
  }

  lemma UnderwayBetween(host: Host, c: Context)
    requires Underway(host, c)
    ensures Between(c, host.store) && host.records == c.start.records
  {
  }

  // ---- forward ----

  // Make the planned directories, in order, up to the first failure. What was there stays.
  method MakeDirectories(host: Host, roots: map<string, Root>, dirs: seq<Directory>) returns (e: Option<Error>)
    requires host.kernel.Valid()
    modifies host`faults, host`said, host.kernel
    ensures host.kernel.Valid() && host.kernel.open == old(host.kernel.open)
    ensures MadeSome(old(host.kernel.tree), host.kernel.anchors, roots, dirs, host.kernel.tree)
    ensures Keeps(old(host.kernel.tree), host.kernel.tree)
    ensures e.None? ==> host.kernel.tree == MadeAll(old(host.kernel.tree), host.kernel.anchors, roots, dirs)
    ensures e.None? ==> AllStand(host.kernel.tree, host.kernel.anchors, roots, dirs)
    ensures e.Some? ==> e.value == DirectoryFailed
    ensures host.said == old(host.said) + if e.Some? then [e.value] else []
    ensures host.faults >= old(host.faults) && (e.None? ==> host.faults == old(host.faults))
    ensures host.faults == old(host.faults) ==>
      (e.None? <==> WaysClear(old(host.kernel.tree), host.kernel.anchors, roots, dirs))
  {
    hide Keeps, Stands, WayClear, MadeTo;
    KeepsItself(host.kernel.tree);
    ghost var k, t := host.kernel, host.kernel.tree;
    for i := 0 to |dirs|
      invariant k.Valid() && k.open == old(k.open)
      invariant k.tree == MadeAll(t, k.anchors, roots, dirs[..i]) && Keeps(t, k.tree)
      invariant AllStand(k.tree, k.anchors, roots, dirs[..i])
      invariant forall d: Directory :: WayClear(t, k.anchors, RootOf(roots, d), d.relativePath) <==>
        WayClear(k.tree, k.anchors, RootOf(roots, d), d.relativePath)
      invariant WaysClear(t, k.anchors, roots, dirs[..i])
      invariant host.faults == old(host.faults) && host.said == old(host.said)
    {
      var d := dirs[i];
      ghost var mid := k.tree;
      assert dirs[..i + 1] == dirs[..i] + [d] && dirs[..i + 1][..i] == dirs[..i] && d in dirs;
      var root := if d.rootId in roots then roots[d.rootId] else Root("", "", "");
      e := host.EnsureDirectory(root, d.relativePath);
      PartlyMadeKeeps(mid, k.anchors, RootOf(roots, d), d.relativePath, k.tree, roots);
      KeepsTransitive(t, mid, k.tree);
      if e.Some? {
        return;
      }
    }
    assert dirs[..|dirs|] == dirs;
    e := None;
  }

  // The first k units are down, and perhaps the one whose stop failed; all others are as they
  // were.
  ghost predicate FirstDown(before: map<Unit, string>, after: map<Unit, string>, units: seq<Unit>, k: nat)
    requires k < |units|
  {
    after == before - UnitSet(units[..k]) || after == before - UnitSet(units[..k + 1])
  }

  method StopUnits(host: Host, ghost c: Context, units: seq<Unit>) returns (e: Option<Error>)
    requires Underway(host, c) && host.phase.Forward? && forall u :: u in units ==> u in Concerned(c)
    modifies host`running, host`trace, host`faults, host`said
    ensures Underway(host, c)
    ensures ReloadPhases(host.trace) == ReloadPhases(old(host.trace))
    ensures e.Some? ==> e.value.UnitFailed?
    ensures e.None? ==> forall u :: u in units ==> u !in host.running
    ensures e.None? ==> host.running == old(host.running) - UnitSet(units)
    ensures e.None? ==> Went(LogOf(old(host.trace)), LogOf(host.trace), Stops(units), e)
    ensures e.Some? ==> exists k: nat ::
      && k < |units| && FirstDown(old(host.running), host.running, units, k)
      && Went(LogOf(old(host.trace)), LogOf(host.trace), Stops(units[..k + 1]), e)
    ensures host.said == old(host.said) + if e.Some? then [e.value] else []
    ensures e.None? && StopsOk(old(host.trace)) ==> StopsOk(host.trace)
    ensures Stopped(old(host.running), host.running, UnitSet(units))
    ensures host.faults >= old(host.faults)
    ensures e.Some? && (forall u :: u in units ==> host.CanRun(u)) ==> host.faults > old(host.faults)
  {
    hide *;
    WentNowhere(LogOf(host.trace));
    NoneStopped(host.running, units);
    for i := 0 to |units|
      invariant Underway(host, c)
      invariant ReloadPhases(host.trace) == ReloadPhases(old(host.trace))
      invariant Went(LogOf(old(host.trace)), LogOf(host.trace), Stops(units[..i]), None)
      invariant host.said == old(host.said)
      invariant host.running == old(host.running) - UnitSet(units[..i])
      invariant StopsOk(old(host.trace)) ==> StopsOk(host.trace)
      invariant host.faults >= old(host.faults)
    {
      assert units[i] in units;
      ghost var log := LogOf(host.trace);
      e := StopOne(host, c, units[i]);
      StoppedOneUnit(old(host.running), units, i);
      StoppedInTurn(LogOf(old(host.trace)), log, units, i, e);
      if e.Some? {
        FirstAreDown(old(host.running), host.running, units, i);
        return;
      }
    }
    assert units[..|units|] == units;
    AllAreDown(old(host.running), units);
    e := None;
  }

  lemma NoneStopped(running: map<Unit, string>, units: seq<Unit>)
    ensures units[..0] == [] && Stops([]) == [] && running == running - UnitSet([])
  {
  }

  lemma StoppedOneUnit(before: map<Unit, string>, units: seq<Unit>, i: nat)
    requires i < |units|
    ensures before - UnitSet(units[..i]) - {units[i]} == before - UnitSet(units[..i + 1])
  {
    assert units[..i + 1] == units[..i] + [units[i]];
  }

  lemma StoppedInTurn(before: Log, mid: Log, units: seq<Unit>, i: nat, e: Option<Error>)
    requires i < |units| && Went(before, mid, Stops(units[..i]), None)
    requires e.Some? ==> e.value == UnitFailed(units[i])
    ensures Went(before, Noted(mid, Forward, StopUnit(units[i]), e.None?), Stops(units[..i + 1]), e)
  {
    assert units[..i + 1][..i] == units[..i];
    WentOne(before, mid, Stops(units[..i]), StopUnit(units[i]), e);
  }

  lemma FirstAreDown(before: map<Unit, string>, after: map<Unit, string>, units: seq<Unit>, k: nat)
    requires k < |units|
    requires after == before - UnitSet(units[..k]) || after == before - UnitSet(units[..k + 1])
    ensures FirstDown(before, after, units, k) && Stopped(before, after, UnitSet(units))
  {
    assert forall u :: u in units[..k] || u in units[..k + 1] ==> u in units;
  }

  lemma AllAreDown(before: map<Unit, string>, units: seq<Unit>)
    ensures Stopped(before, before - UnitSet(units), UnitSet(units))
    ensures forall u :: u in units ==> u !in before - UnitSet(units)
  {
  }

  method RemoveSources(host: Host, ghost c: Context, names: seq<string>)
    returns (removed: seq<string>, e: Option<Error>)
    requires Underway(host, c) && host.phase.Forward?
    requires Distinct(names) && forall n :: n in names ==> n in c.own
    requires c.controlled && StopsOk(host.trace) ==> forall n :: n in names ==> Service(n) !in host.running
    modifies host`store, host`running, host`trace, host`faults, host`said
    ensures Underway(host, c)
    ensures ReloadPhases(host.trace) == ReloadPhases(old(host.trace))
    ensures removed <= names && (if e.None? then removed == names else |removed| < |names|)
    ensures Went(
      LogOf(old(host.trace)), LogOf(host.trace), Removals(if e.None? then names else names[..|removed| + 1]), e)
    ensures host.said == old(host.said) + if e.Some? then [e.value] else []
    ensures e.Some? ==> e.value.SourceRefused?
    ensures Without(old(host.store), removed, host.store) && host.running == old(host.running)
    ensures StopsOk(host.trace) == StopsOk(old(host.trace))
    ensures host.faults >= old(host.faults)
    ensures e.Some? && c.controlled && StopsOk(host.trace) && Reachable(old(host.store), NameSet(names)) ==>
      host.faults > old(host.faults)
  {
    hide *;
    removed := [];
    WentNowhere(LogOf(host.trace));
    NothingWithout(host.store, names);
    for i := 0 to |names|
      invariant Underway(host, c)
      invariant ReloadPhases(host.trace) == ReloadPhases(old(host.trace))
      invariant Went(LogOf(old(host.trace)), LogOf(host.trace), Removals(names[..i]), None)
      invariant host.said == old(host.said)
      invariant removed == names[..i]
      invariant Without(old(host.store), removed, host.store) && host.running == old(host.running)
      invariant StopsOk(host.trace) == StopsOk(old(host.trace))
      invariant host.faults == old(host.faults)
    {
      assert names[i] in names;
      ghost var log, mid := LogOf(host.trace), host.store;
      StillToRemove(old(host.store), mid, names, i);
      e := RemoveOne(host, c, names[i], false);
      RemovedOneMore(LogOf(old(host.trace)), log, names, i, e);
      if e.Some? {
        return;
      }
      WithoutOneMore(old(host.store), mid, host.store, names, i);
      removed := removed + [names[i]];
    }
    assert names[..|names|] == names;
    e := None;
  }

  lemma NothingWithout(store: map<string, string>, names: seq<string>)
    ensures names[..0] == [] && Removals([]) == [] && Without(store, [], store)
  {
  }

  lemma StillToRemove(before: map<string, string>, store: map<string, string>, names: seq<string>, i: nat)
    requires i < |names| && Distinct(names) && Without(before, names[..i], store)
    ensures names[i] in before ==> names[i] in store
    ensures Reachable(before, NameSet(names)) ==> names[i] in before && ClientAccepts(names[i])
  {
    hide ClientAccepts;
    assert names[i] in NameSet(names);
  }

  lemma RemovedOneMore(before: Log, mid: Log, names: seq<string>, i: nat, e: Option<Error>)
    requires i < |names| && Went(before, mid, Removals(names[..i]), None)
    requires e.Some? ==> e.value == SourceRefused(names[i])
    ensures Went(before, Noted(mid, Forward, RemoveSource(names[i], false), e.None?), Removals(names[..i + 1]), e)
  {
    assert names[..i + 1][..i] == names[..i];
    WentOne(before, mid, Removals(names[..i]), RemoveSource(names[i], false), e);
  }

  lemma WithoutOneMore(
    before: map<string, string>, mid: map<string, string>, after: map<string, string>, names: seq<string>, i: nat)
    requires i < |names| && Distinct(names) && Without(before, names[..i], mid)
    requires names[i] in mid && after == mid - {names[i]}
    ensures Without(before, names[..i] + [names[i]], after) && names[..i + 1] == names[..i] + [names[i]]
  {
  }

  method InstallSources(host: Host, ghost c: Context, rs: seq<Rendered>)
    returns (installed: seq<string>, e: Option<Error>)
    requires Underway(host, c) && host.phase.Forward?
    requires forall r :: r in rs ==> (r.name, r.content) in c.offers
    modifies host`store, host`trace, host`faults, host`said
    ensures Underway(host, c)
    ensures ReloadPhases(host.trace) == ReloadPhases(old(host.trace))
    ensures |installed| <= |rs| && Placed(old(host.store), rs, |installed|, installed, host.store)
    ensures e.None? <==> |installed| == |rs|
    ensures Went(
      LogOf(old(host.trace)), LogOf(host.trace), Installs(if e.None? then rs else rs[..|installed| + 1]), e)
    ensures e.Some? ==> e.value == SourceRefused(rs[|installed|].name)
    ensures host.said == old(host.said) + if e.Some? then [e.value] else []
    ensures StopsOk(host.trace) == StopsOk(old(host.trace))
    ensures host.faults >= old(host.faults)
    ensures e.Some? && host.faults == old(host.faults) ==>
      var next := rs[|installed|].name;
      !ClientAccepts(next) || next in old(host.store) || next in installed
  {
    hide *;
    installed := [];
    WentNowhere(LogOf(host.trace));
    NothingPlaced(host.store, rs);
    for i := 0 to |rs|
      invariant Underway(host, c)
      invariant ReloadPhases(host.trace) == ReloadPhases(old(host.trace))
      invariant Went(LogOf(old(host.trace)), LogOf(host.trace), Installs(rs[..i]), None)
      invariant host.said == old(host.said)
      invariant Placed(old(host.store), rs, i, installed, host.store)
      invariant StopsOk(host.trace) == StopsOk(old(host.trace))
      invariant host.faults == old(host.faults)
    {
      var r := rs[i];
      assert r in rs;
      ghost var log, mid := LogOf(host.trace), host.store;
      PlacedIs(old(host.store), rs, i, installed, mid);
      e := InstallOne(host, c, r.name, r.content);
      InstalledOneMore(LogOf(old(host.trace)), log, rs, i, e);
      if e.Some? {
        return;
      }
      PlacedOneMore(old(host.store), rs, i, installed, mid);
      installed := installed + [r.name];
    }
    PlacedIs(old(host.store), rs, |rs|, installed, host.store);
    assert rs[..|rs|] == rs;
    e := None;
  }

  // Exactly the first k of these resources are in the store, under names that were free.
  ghost predicate Placed(
    before: map<string, string>, rs: seq<Rendered>, k: nat, installed: seq<string>, after: map<string, string>)
  {
    && k <= |rs| && installed == Names(rs[..k]) && after == before + SourceMap(rs[..k])
    && Distinct(installed) && (forall n :: n in installed ==> n !in before && ClientAccepts(n))
    && (forall n :: n in after <==> n in before || n in installed)
  }

  lemma NothingPlaced(store: map<string, string>, rs: seq<Rendered>)
    ensures rs[..0] == [] && Installs([]) == [] && Placed(store, rs, 0, [], store)
  {
  }

  lemma PlacedIs(
    before: map<string, string>, rs: seq<Rendered>, k: nat, installed: seq<string>, after: map<string, string>)
    requires Placed(before, rs, k, installed, after)
    ensures |installed| == k && installed == Names(rs[..k]) && after == before + SourceMap(rs[..k])
    ensures Distinct(installed) && (forall n :: n in installed ==> n !in before && ClientAccepts(n))
    ensures forall n :: n in after <==> n in before || n in installed
  {
    hide ClientAccepts, SourceMap;
  }

  lemma InstalledOneMore(before: Log, mid: Log, rs: seq<Rendered>, i: nat, e: Option<Error>)
    requires i < |rs| && Went(before, mid, Installs(rs[..i]), None)
    requires e.Some? ==> e.value == SourceRefused(rs[i].name)
    ensures Went(
      before, Noted(mid, Forward, InstallSource(rs[i].name, rs[i].content), e.None?), Installs(rs[..i + 1]), e)
  {
    assert rs[..i + 1][..i] == rs[..i];
    WentOne(before, mid, Installs(rs[..i]), InstallSource(rs[i].name, rs[i].content), e);
  }

  lemma PlacedOneMore(
    before: map<string, string>, rs: seq<Rendered>, i: nat, installed: seq<string>, mid: map<string, string>)
    requires i < |rs| && Placed(before, rs, i, installed, mid)
    requires ClientAccepts(rs[i].name) && rs[i].name !in mid
    ensures Placed(before, rs, i + 1, installed + [rs[i].name], mid[rs[i].name := rs[i].content])
  {
    OneMore(rs, i);
    AddOne(before, SourceMap(rs[..i]), rs[i].name, rs[i].content);
    hide SourceMap, ClientAccepts, Names;
  }

  // The units of the resources marked Start.
  function Wanted(rs: seq<Rendered>): set<Unit> {
    set r | r in rs && r.start :: Service(r.name)
  }

  // The same units, in the order of the resources.
  function WantedInOrder(rs: seq<Rendered>): seq<Unit> {
    if rs == [] then []
    else
      var r := rs[|rs| - 1];
      WantedInOrder(rs[..|rs| - 1]) + if r.start then [Service(r.name)] else []
  }

  // How far bringing units up has come: those before some resource have been told to run; a
  // failure is about the last of them, or about that resource, which generates no unit.
  ghost predicate BroughtUpTo(
    generates: (string, string) -> bool, store: map<string, string>, rs: seq<Rendered>, started: seq<Unit>,
    e: Option<Error>)
  {
    if e.None? then started == WantedInOrder(rs)
    else
      exists k: nat :: k < |rs| && rs[k].start && var u := Service(rs[k].name);
        if e.value.UnitNotGenerated? then
          && e.value.name == rs[k].name && started == WantedInOrder(rs[..k])
          && !(rs[k].name in store && generates(rs[k].name, store[rs[k].name]))
        else
          started == WantedInOrder(rs[..k]) + [u] && (e.value == UnitFailed(u) || e.value == UnitNotActive(u))
  }

  // Of the units in `started`, those that run have been left alone or brought up to date; no
  // other unit was touched.
  ghost predicate BroughtUp(
    generates: (string, string) -> bool, loaded: map<string, string>, before: map<Unit, string>,
    after: map<Unit, string>, started: seq<Unit>)
  {
    && SameBut(before, after, UnitSet(started))
    && forall u :: u in after && u in started ==> SameAt(before, after, u) || Fresh(generates, loaded, after, u)
  }

  // Every unit that was running still is, on the same source.
  ghost predicate KeptUp(before: map<Unit, string>, after: map<Unit, string>) {
    forall u :: u in before ==> u in after && after[u] == before[u]
  }

  lemma StillUp(before: map<Unit, string>, mid: map<Unit, string>, after: map<Unit, string>, u: Unit)
    requires SameElsewhere(mid, after, u)
    ensures KeptUp(before, mid) && (u in mid ==> after == mid) ==> KeptUp(before, after)
  {
  }

  lemma StillUpAtFirst(running: map<Unit, string>)
    ensures KeptUp(running, running)
  {
  }

  lemma OneMoreUp(
    generates: (string, string) -> bool, loaded: map<string, string>, before: map<Unit, string>,
    mid: map<Unit, string>, after: map<Unit, string>, started: seq<Unit>, u: Unit)
    requires BroughtUp(generates, loaded, before, mid, started) && SameElsewhere(mid, after, u)
    requires u in after ==> SameAt(mid, after, u) || Fresh(generates, loaded, after, u)
    ensures BroughtUp(generates, loaded, before, after, started + [u])
  {
    hide Runnable;
  }

  lemma RanOneMore(
    before: Log, mid: Log, after: Log, started: seq<Unit>, u: Unit, restart: bool, e: Option<Error>)
    requires Went(before, mid, Runs(started, restart), None)
    requires RanOnce(mid, after, Forward, RunCall(u, restart), e, UnitFailed(u))
    ensures Went(before, after, Runs(started + [u], restart), e)
  {
    assert (started + [u])[..|started|] == started;
  }

  // Bring up the units of the resources marked Start: with Restart in an update, with Start
  // in an install. `started` lists every unit touched, including one that failed.
  method BringUp(host: Host, ghost c: Context, rs: seq<Rendered>, units: map<string, Unit>, restart: bool)
    returns (started: seq<Unit>, e: Option<Error>)
    requires Underway(host, c) && host.phase.Forward?
    requires units.Keys == host.store.Keys && forall n :: n in units ==> units[n] == host.UnitName(n, host.store[n])
    requires host.loaded == host.store && Wanted(rs) <= Concerned(c)
    modifies host`running, host`trace, host`faults, host`said
    ensures Underway(host, c)
    ensures ReloadPhases(host.trace) == ReloadPhases(old(host.trace))
    ensures Went(LogOf(old(host.trace)), LogOf(host.trace), Runs(started, restart), e)
    ensures BroughtUpTo(host.generates, host.store, rs, started, e)
    ensures host.said == old(host.said) + Voiced(e)
    ensures e.Some? ==> e.value.UnitNotGenerated? || e.value.UnitFailed? || e.value.UnitNotActive?
    ensures e.None? ==> forall u :: u in Wanted(rs) ==>
      u in host.running && (restart || u !in old(host.running) ==> host.UpToDate(u))
    ensures forall u :: u in started ==> u in Wanted(rs) && host.CanRun(u)
    ensures BroughtUp(host.generates, host.loaded, old(host.running), host.running, started)
    ensures !restart ==> KeptUp(old(host.running), host.running)
    ensures StopsOk(host.trace) == StopsOk(old(host.trace))
    ensures host.faults >= old(host.faults)
    ensures e.Some? && (forall r :: r in rs && r.start ==> r.name in host.store && units[r.name] != NoUnit) ==>
      host.faults > old(host.faults)
  {
    hide Underway, StopsOk, RollbackSourcesOk, ReloadPhases, Names, Concerned, UnitSet, Attempts, Failures, LogOf, Went;
    hide RanOnce, Runs, KeptUp;
    started := [];
    WentNowhere(LogOf(host.trace));
    NoRuns(restart);
    StillUpAtFirst(host.running);
    assert rs[..0] == [];
    for i := 0 to |rs|
      invariant Underway(host, c)
      invariant ReloadPhases(host.trace) == ReloadPhases(old(host.trace))
      invariant Went(LogOf(old(host.trace)), LogOf(host.trace), Runs(started, restart), None)
      invariant host.said == old(host.said)
      invariant started == WantedInOrder(rs[..i])
      invariant forall j :: 0 <= j < i && rs[j].start ==> var u := Service(rs[j].name);
        u in host.running && (restart || u !in old(host.running) ==> host.UpToDate(u))
      invariant forall u :: u in started ==> u in Wanted(rs) && host.CanRun(u)
      invariant BroughtUp(host.generates, host.loaded, old(host.running), host.running, started)
      invariant !restart ==> KeptUp(old(host.running), host.running)
      invariant StopsOk(host.trace) == StopsOk(old(host.trace))
      invariant host.faults == old(host.faults)
    {
      var r := rs[i];
      assert rs[..i + 1][..i] == rs[..i];
      if r.start {
        if r.name !in units || units[r.name] == NoUnit {
          e := Some(UnitNotGenerated(r.name));
          WentWhatever(LogOf(old(host.trace)), LogOf(host.trace), Runs(started, restart), e);
          return;
        }
        var u := units[r.name];
        assert r in rs && u == Service(r.name);
        ghost var tried, mid, log := started, host.running, LogOf(host.trace);
        started := started + [u];
        e := RunAndVerify(host, c, u, restart);
        RanOneMore(LogOf(old(host.trace)), log, LogOf(host.trace), tried, u, restart, e);
        StillUp(old(host.running), mid, host.running, u);
        OneMoreUp(host.generates, host.loaded, old(host.running), mid, host.running, tried, u);
        if e.Some? {
          return;
        }
      }
    }
    assert rs[..|rs|] == rs;
    e := None;
  }

  lemma CapturedOneMore(
    generates: (string, string) -> bool, resources: map<string, ResourceState>, rs: seq<Rendered>, i: nat,
    store: map<string, string>, name: string)
    requires i < |rs| && name == rs[i].name && Captured(generates, resources, rs[..i], store)
    requires name in store && ClientAccepts(name)
    ensures Captured(
      generates,
      resources[name :=
        ResourceState(name, UnitFor(generates, name, store[name]), Sha256(Cut(store[name])), Cut(store[name]))],
      rs[..i + 1], store)
  {
    hide Cut, ClientAccepts;
    OneMore(rs, i);
  }

  lemma NoneCaptured(generates: (string, string) -> bool, rs: seq<Rendered>, store: map<string, string>)
    ensures Captured(generates, map[], rs[..0], store)
  {
  }

  method CaptureResources(host: Host, rs: seq<Rendered>)
    returns (resources: map<string, ResourceState>, e: Option<Error>)
    modifies host`faults, host`said
    ensures e.None? ==> Captured(host.generates, resources, rs, host.store)
    ensures e.Some? ==> e.value.ListUnreadable? || (e.value.SourceUnreadable? && e.value.name in Names(rs))
    ensures host.said == old(host.said) + if e.Some? then [e.value] else []
    ensures host.faults >= old(host.faults)
    ensures e.Some? && Reachable(host.store, NameSet(Names(rs))) ==> host.faults > old(host.faults)
  {
    hide ClientAccepts, Cut, Captured;
    resources := map[];
    var units;
    e, units := host.ListQuadlets();
    if e.Some? {
      return;
    }
    NoneCaptured(host.generates, rs, host.store);
    for i := 0 to |rs|
      invariant Captured(host.generates, resources, rs[..i], host.store)
      invariant host.faults == old(host.faults) && host.said == old(host.said)
    {
      var name, source := rs[i].name, "";
      assert name == Names(rs)[i];
      e, source := host.GetQuadlet(name);
      if e.Some? {
        return;
      }
      CapturedOneMore(host.generates, resources, rs, i, host.store, name);
      resources := resources[name :=
        ResourceState(name, if name in units then units[name] else NoUnit, Sha256(source), source)];
    }
    assert rs[..|rs|] == rs;
    e := None;
  }

  lemma NoRuns(restart: bool)
    ensures Runs([], restart) == []
  {
  }

  lemma WentWhatever(before: Log, after: Log, calls: seq<Call>, e: Option<Error>)
    requires Went(before, after, calls, None)
    ensures Went(before, after, calls, e)
  {
  }

  // How far serving the new sources has come: no further than the reload, through some of the
  // units, or through all of them and then to reading them back.
  ghost predicate ServedUpTo(
    generates: (string, string) -> bool, store: map<string, string>, rs: seq<Rendered>, started: seq<Unit>,
    e: Option<Error>)
  {
    || (started == [] && e.Some? && (e.value == ReloadFailed || e.value == ListUnreadable))
    || BroughtUpTo(generates, store, rs, started, e)
    || (e.Some? && started == WantedInOrder(rs) &&
         (e.value == ListUnreadable || (e.value.SourceUnreadable? && e.value.name in Names(rs))))
  }

  // What the calls on sources and units report.
  predicate Operational(e: Error) {
    || e.SourceRefused? || e.SourceUnreadable? || e.ListUnreadable? || e.ReloadFailed?
    || e.UnitFailed? || e.UnitNotActive? || e.UnitNotGenerated?
  }

  // The common middle of install and update: reload once, resolve the generated units,
  // bring them up, and read the live sources back as baselines.
  method Serve(host: Host, ghost c: Context, rs: seq<Rendered>, restart: bool)
    returns (started: seq<Unit>, resources: map<string, ResourceState>, e: Option<Error>)
    requires Underway(host, c) && host.store == c.target && host.phase.Forward? && Forward !in ReloadPhases(host.trace)
    requires Wanted(rs) <= Concerned(c)
    modifies host`loaded, host`running, host`trace, host`faults, host`said
    ensures Underway(host, c)
    ensures ReloadPhases(host.trace) == ReloadPhases(old(host.trace)) + {host.phase}
    ensures Went(LogOf(old(host.trace)), LogOf(host.trace), [Reload] + Runs(started, restart), e)
    ensures ServedUpTo(host.generates, host.store, rs, started, e)
    ensures host.said == old(host.said) + Voiced(e)
    ensures e.Some? ==> Operational(e.value)
    ensures e.None? ==> host.loaded == host.store && Captured(host.generates, resources, rs, host.store)
    ensures e.None? ==> forall u :: u in Wanted(rs) ==>
      u in host.running && (restart || u !in old(host.running) ==> host.UpToDate(u))
    ensures forall u :: u in started ==> u in Wanted(rs) && host.CanRun(u)
    ensures BroughtUp(host.generates, host.loaded, old(host.running), host.running, started)
    ensures !restart ==> KeptUp(old(host.running), host.running)
    ensures StopsOk(host.trace) == StopsOk(old(host.trace))
    ensures host.faults >= old(host.faults)
    ensures e.Some? && Reachable(host.store, NameSet(Names(rs))) && AllGenerate(host.generates, rs, host.store) ==>
      host.faults > old(host.faults)
  {
    hide *;
    started, resources := [], map[];
    ghost var log := LogOf(host.trace);
    NothingServed(host.generates, host.store, rs, host.running);
    e := ReloadOnce(host, c);
    WentReloading(log, e, restart);
    ghost var reloaded := LogOf(host.trace);
    NoneBroughtUp(host.generates, host.loaded, host.running);
    if e.Some? {
      return;
    }
    var units;
    e, units := host.ListQuadlets();
    if e.Some? {
      WentWhatever(log, LogOf(host.trace), [Reload] + Runs(started, restart), e);
      return;
    }
    AllHaveUnits(host, rs, units);
    started, e := BringUp(host, c, rs, units, restart);
    WentOn(log, reloaded, LogOf(host.trace), [Reload], Runs(started, restart), e);
    BroughtIsServed(host.generates, host.store, rs, started, e, restart);
    if e.Some? {
      return;
    }
    resources, e := CaptureResources(host, rs);
    WentWhatever(log, LogOf(host.trace), [Reload] + Runs(started, restart), e);
    ReadingIsLast(host.generates, host.store, rs, started, e);
  }

  lemma WentReloading(log: Log, e: Option<Error>, restart: bool)
    requires e.Some? ==> e.value == ReloadFailed
    ensures Went(log, Noted(log, Forward, Reload, e.None?), [Reload], e)
    ensures [Reload] + Runs([], restart) == [Reload]
    ensures e.Some? ==> Operational(e.value) && Voiced(e) == [e.value]
  {
    assert [] + [Reload] == [Reload];
  }

  lemma NothingServed(
    generates: (string, string) -> bool, store: map<string, string>, rs: seq<Rendered>, running: map<Unit, string>)
    ensures ServedUpTo(generates, store, rs, [], Some(ReloadFailed))
    ensures ServedUpTo(generates, store, rs, [], Some(ListUnreadable))
    ensures Operational(ListUnreadable) && Voiced(Some(ListUnreadable)) == [ListUnreadable] && Voiced(None) == []
    ensures KeptUp(running, running)
  {
  }

  lemma NoneBroughtUp(generates: (string, string) -> bool, loaded: map<string, string>, running: map<Unit, string>)
    ensures BroughtUp(generates, loaded, running, running, [])
  {
  }

  lemma BroughtIsServed(
    generates: (string, string) -> bool, store: map<string, string>, rs: seq<Rendered>, started: seq<Unit>,
    e: Option<Error>, restart: bool)
    requires BroughtUpTo(generates, store, rs, started, e)
    requires e.Some? ==> e.value.UnitNotGenerated? || e.value.UnitFailed? || e.value.UnitNotActive?
    ensures ServedUpTo(generates, store, rs, started, e) && (e.Some? ==> Operational(e.value))
    ensures e.None? ==> Voiced(e) == [] && started == WantedInOrder(rs)
  {
    hide WantedInOrder;
  }

  lemma AllHaveUnits(host: Host, rs: seq<Rendered>, units: map<string, Unit>)
    requires units.Keys == host.store.Keys && forall n :: n in units ==> units[n] == host.UnitName(n, host.store[n])
    ensures AllGenerate(host.generates, rs, host.store) ==>
      forall r :: r in rs && r.start ==> r.name in host.store && units[r.name] != NoUnit
  {
  }

  lemma ReadingIsLast(
    generates: (string, string) -> bool, store: map<string, string>, rs: seq<Rendered>, started: seq<Unit>,
    e: Option<Error>)
    requires started == WantedInOrder(rs)
    requires e.Some? ==> e.value.ListUnreadable? || (e.value.SourceUnreadable? && e.value.name in Names(rs))
    ensures ServedUpTo(generates, store, rs, started, e)
    ensures e.Some? ==> Operational(e.value)
    ensures Voiced(e) == if e.Some? then [e.value] else []
  {
    hide WantedInOrder;
  }

  // The named sources as the client reads them.
  ghost predicate IsSnapshot(snapshot: map<string, string>, store: map<string, string>, names: set<string>) {
    snapshot.Keys == names && forall n :: n in names ==> n in store && snapshot[n] == Cut(store[n])
  }

  // Read the named sources; reads change nothing, so their order is left open.
  method Snapshot(host: Host, names: set<string>) returns (e: Option<Error>, snapshot: map<string, string>)
    modifies host`faults, host`said
    ensures e.None? ==> Reachable(host.store, names) && IsSnapshot(snapshot, host.store, names)
    ensures e.Some? ==> e.value.SourceUnreadable? && e.value.name in names
    ensures host.said == old(host.said) + if e.Some? then [e.value] else []
    ensures host.faults >= old(host.faults) && (e.None? ==> host.faults == old(host.faults))
    ensures e.Some? && Reachable(host.store, names) ==> host.faults > old(host.faults)
  {
    snapshot := map[];
    var rest := names;
    while rest != {}
      invariant rest <= names
      invariant Reachable(host.store, names - rest) && IsSnapshot(snapshot, host.store, names - rest)
      invariant host.faults == old(host.faults) && host.said == old(host.said)
      decreases rest
    {
      var n :| n in rest;
      var source;
      e, source := host.GetQuadlet(n);
      if e.Some? {
        return;
      }
      snapshot := snapshot[n := source];
      rest := rest - {n};
    }
    assert names - rest == names;
    e := None;
  }

  // Save the record, then write its documentation: the one step after which a failure is
  // reported but nothing is undone.
  method Commit(host: Host, ghost c: Context, record: Instance) returns (e: Option<Error>)
    requires Underway(host, c) && host.phase.Forward?
    requires record.id == c.id && Honest(record, host.store)
    modifies host`records, host`docs, host`trace, host`faults, host`said
    ensures Good(c, host.trace) && Linked(host.generates, c.start, host.trace, host.Now())
    ensures ReloadPhases(host.trace) == ReloadPhases(old(host.trace))
    ensures Went(LogOf(old(host.trace)), LogOf(host.trace), [SaveRecord(record)], e)
    ensures host.said == old(host.said) + if e.Some? then [e.value] else []
    ensures e.None? || e == Some(DocsFailed) || e == Some(SaveFailed)
    ensures host.records == if e == Some(SaveFailed) then c.start.records else c.start.records[record.id := record]
    ensures e.None? ==> host.docs == old(host.docs)[record.id := record]
    ensures host.docs - {record.id} == old(host.docs) - {record.id}
    ensures e == Some(SaveFailed) ==> host.docs == old(host.docs)
    ensures host.faults == old(host.faults) + if e.Some? then 1 else 0
  {
    hide Good, Linked, Untouched, Between, Honest, StopsOk, RollbackSourcesOk, ReloadPhases, Attempts, Failures, LogOf;
    hide Went;
    ghost var tr := host.trace;
    e := host.SaveInstance(record);
    Append(host, c, tr);
    WentNowhere(LogOf(tr));
    WentOne(LogOf(tr), LogOf(tr), [], SaveRecord(record), e);
    assert [] + [SaveRecord(record)] == [SaveRecord(record)];
    if e.None? {
      e := host.WriteDocs(record);
      WentWhatever(LogOf(tr), LogOf(host.trace), [SaveRecord(record)], e);
    }
  }

  // ---- rollback ----

  method BeginRollback(host: Host, ghost c: Context)
    requires Underway(host, c) && host.phase.Forward?
    modifies host`phase
    ensures Underway(host, c) && host.phase.Rollback?
    ensures RollbackSourcesOk(host.trace) && Rollback !in ReloadPhases(host.trace) && Between(c, host.store)
  {
    host.phase := Rollback;
  }

  function StopsLastFirst(units: seq<Unit>): seq<Call> {
    if units == [] then [] else StopsLastFirst(units[1..]) + [StopUnit(units[0])]
  }

  function RemovalsLastFirst(names: seq<string>, force: bool): seq<Call> {
    if names == [] then [] else RemovalsLastFirst(names[1..], force) + [RemoveSource(names[0], force)]
  }

  // Stop the attempted units, last first.
  method StopStarted(host: Host, ghost c: Context, started: seq<Unit>) returns (errs: seq<Error>)
    requires Underway(host, c) && host.phase.Rollback? && forall u :: u in started ==> u in Concerned(c)
    modifies host`running, host`trace, host`faults, host`said
    ensures Underway(host, c)
    ensures ReloadPhases(host.trace) == ReloadPhases(old(host.trace))
    ensures WentBack(LogOf(old(host.trace)), LogOf(host.trace), StopsLastFirst(started))
    ensures host.said == old(host.said) + errs
    ensures Failures(old(host.trace)) <= Failures(host.trace) && Attempts(old(host.trace)) <= Attempts(host.trace)
    ensures forall u :: u in started ==> u !in host.running || StopUnit(u) in Failures(host.trace)
    ensures RollbackSourcesOk(host.trace) == RollbackSourcesOk(old(host.trace))
    ensures StopsOk(host.trace) ==> StopsOk(old(host.trace)) && forall u :: u in started ==> u !in host.running
    ensures errs == [] && StopsOk(old(host.trace)) ==> StopsOk(host.trace)
    ensures Stopped(old(host.running), host.running, UnitSet(started))
    ensures host.faults >= old(host.faults)
    ensures (forall u :: u in started ==> host.CanRun(u)) ==> host.faults == old(host.faults) + |errs|
  {
    hide Underway, StopsOk, RollbackSourcesOk, ReloadPhases, Attempts, Failures, LogOf;
    errs := [];
    for i := |started| downto 0
      invariant Underway(host, c)
      invariant ReloadPhases(host.trace) == ReloadPhases(old(host.trace))
      invariant WentBack(LogOf(old(host.trace)), LogOf(host.trace), StopsLastFirst(started[i..]))
      invariant host.said == old(host.said) + errs
      invariant Failures(old(host.trace)) <= Failures(host.trace) && Attempts(old(host.trace)) <= Attempts(host.trace)
      invariant forall j :: i <= j < |started| ==>
        started[j] !in host.running || StopUnit(started[j]) in Failures(host.trace)
      invariant RollbackSourcesOk(host.trace) == RollbackSourcesOk(old(host.trace))
      invariant StopsOk(host.trace) ==> StopsOk(old(host.trace)) && forall j :: i <= j < |started| ==>
        started[j] !in host.running
      invariant errs == [] && StopsOk(old(host.trace)) ==> StopsOk(host.trace)
      invariant Stopped(old(host.running), host.running, UnitSet(started))
      invariant host.faults >= old(host.faults)
      invariant (forall u :: u in started ==> host.CanRun(u)) ==> host.faults == old(host.faults) + |errs|
    {
      assert started[i] in started && started[i..] == [started[i]] + started[i + 1..];
      var e := StopOne(host, c, started[i]);
      if e.Some? {
        errs := errs + [e.value];
      }
    }
  }

  lemma WentBackOne(before: Log, mid: Log, calls: seq<Call>, call: Call, ok: bool)
    requires WentBack(before, mid, calls)
    ensures WentBack(before, Noted(mid, Rollback, call, ok), calls + [call])
  {
  }

  // Of before only the named sources are gone; and each of these is, unless its call is among
  // the failures, with its unit when it was taken by force.
  ghost predicate Taken(
    failures: set<Call>, names: seq<string>, force: bool, before: map<string, string>, after: map<string, string>,
    running: map<Unit, string>)
  {
    && Within(after, before)
    && (forall n :: n in before && n !in names ==> n in after)
    && (forall n :: n in names ==>
          RemoveSource(n, force) in failures || (n !in after && (force ==> Service(n) !in running)))
  }

  lemma DistinctAt(names: seq<string>, i: nat)
    requires Distinct(names) && i < |names|
    ensures names[i] !in names[..i] && names[i] !in names[i + 1..]
  {
  }

  lemma NoneToRemove(force: bool)
    ensures RemovalsLastFirst([], force) == []
  {
  }

  lemma OneToRemove(name: string, rest: seq<string>, force: bool)
    ensures RemovalsLastFirst([name] + rest, force) == RemovalsLastFirst(rest, force) + [RemoveSource(name, force)]
  {
    assert ([name] + rest)[1..] == rest;
  }

  lemma NothingStopped(running: map<Unit, string>, units: set<Unit>)
    ensures Stopped(running, running, units)
  {
  }

  lemma StoppedOneMore(
    before: map<Unit, string>, mid: map<Unit, string>, after: map<Unit, string>, names: seq<string>, name: string)
    requires Stopped(before, mid, Services(names)) && name in names
    requires after == mid || after == mid - {Service(name)}
    ensures Stopped(before, after, Services(names))
  {
    assert Service(name) in Services(names);
  }

  lemma NothingTaken(failures: set<Call>, force: bool, store: map<string, string>, running: map<Unit, string>)
    ensures Taken(failures, [], force, store, store, running)
  {
  }

  lemma StillThere(
    failures: set<Call>, names: seq<string>, name: string, force: bool, before: map<string, string>,
    after: map<string, string>, running: map<Unit, string>)
    requires Taken(failures, names, force, before, after, running) && name in before && name !in names
    ensures name in after
  {
  }

  lemma TakenOneMore(
    failures: set<Call>, more: set<Call>, names: seq<string>, name: string, force: bool, before: map<string, string>,
    mid: map<string, string>, up: map<Unit, string>, after: map<string, string>, running: map<Unit, string>)
    requires Taken(failures, names, force, before, mid, up) && failures <= more
    requires
      || (after == mid && running == up && RemoveSource(name, force) in more)
      || (after == mid - {name} && (force ==> running == up - {Service(name)}))
    ensures Taken(more, [name] + names, force, before, after, running)
  {
  }

  // Take back the sources this transaction installed, last first.
  method WithdrawSources(host: Host, ghost c: Context, installed: seq<string>, force: bool) returns (errs: seq<Error>)
    requires Underway(host, c) && host.phase.Rollback?
    requires Distinct(installed)
    requires forall n :: n in installed ==>
      n in host.store && ClientAccepts(n) && (n !in c.start.store || n in c.own) && Service(n) in Concerned(c)
    requires !force && c.controlled && StopsOk(host.trace) ==> forall n :: n in installed ==>
      Service(n) !in host.running
    modifies host`store, host`running, host`trace, host`faults, host`said
    ensures Underway(host, c)
    ensures ReloadPhases(host.trace) == ReloadPhases(old(host.trace))
    ensures WentBack(LogOf(old(host.trace)), LogOf(host.trace), RemovalsLastFirst(installed, force))
    ensures host.said == old(host.said) + errs
    ensures Failures(old(host.trace)) <= Failures(host.trace) && Attempts(old(host.trace)) <= Attempts(host.trace)
    ensures Taken(Failures(host.trace), installed, force, old(host.store), host.store, host.running)
    ensures errs == [] ==> Taken({}, installed, force, old(host.store), host.store, host.running)
    ensures RollbackSourcesOk(host.trace) <==> RollbackSourcesOk(old(host.trace)) && errs == []
    ensures StopsOk(host.trace) == StopsOk(old(host.trace))
    ensures !force ==> host.running == old(host.running)
    ensures Stopped(old(host.running), host.running, Services(installed))
    ensures host.faults >= old(host.faults)
    ensures force || (c.controlled && StopsOk(host.trace)) ==> host.faults == old(host.faults) + |errs|
  {
    hide *;
    errs := [];
    assert installed[|installed|..] == [];
    NoneToRemove(force);
    WentNowhere(LogOf(host.trace));
    NothingStopped(host.running, Services(installed));
    NothingTaken(Failures(host.trace), force, host.store, host.running);
    NothingTaken({}, force, host.store, host.running);
    for i := |installed| downto 0
      invariant Underway(host, c)
      invariant ReloadPhases(host.trace) == ReloadPhases(old(host.trace))
      invariant WentBack(LogOf(old(host.trace)), LogOf(host.trace), RemovalsLastFirst(installed[i..], force))
      invariant host.said == old(host.said) + errs
      invariant Failures(old(host.trace)) <= Failures(host.trace) && Attempts(old(host.trace)) <= Attempts(host.trace)
      invariant Taken(Failures(host.trace), installed[i..], force, old(host.store), host.store, host.running)
      invariant errs == [] ==> Taken({}, installed[i..], force, old(host.store), host.store, host.running)
      invariant RollbackSourcesOk(host.trace) <==> RollbackSourcesOk(old(host.trace)) && errs == []
      invariant StopsOk(host.trace) == StopsOk(old(host.trace))
      invariant !force ==> host.running == old(host.running)
      invariant Stopped(old(host.running), host.running, Services(installed))
      invariant host.faults >= old(host.faults)
      invariant force || (c.controlled && StopsOk(host.trace)) ==> host.faults == old(host.faults) + |errs|
    {
      var name := installed[i];
      DistinctAt(installed, i);
      assert name in installed && installed[i..] == [name] + installed[i + 1..];
      OneToRemove(name, installed[i + 1..], force);
      ghost var mid, up, failures, rest := host.store, host.running, Failures(host.trace), installed[i + 1..];
      StillThere(failures, rest, name, force, old(host.store), mid, up);
      ghost var log := LogOf(host.trace);
      var e := RemoveOne(host, c, name, force);
      WentBackOne(LogOf(old(host.trace)), log, RemovalsLastFirst(rest, force), RemoveSource(name, force), e.None?);
      StoppedOneMore(old(host.running), up, host.running, installed, name);
      TakenOneMore(
        failures, Failures(host.trace), rest, name, force, old(host.store), mid, up, host.store, host.running);
      if e.Some? {
        errs := errs + [e.value];
      } else if errs == [] {
        TakenOneMore({}, {}, rest, name, force, old(host.store), mid, up, host.store, host.running);
      }
    }
  }

  lemma SnapshotIsOriginal(c: Context, snapshot: map<string, string>)
    requires IsSnapshot(snapshot, c.start.store, c.own) && Reachable(c.start.store, c.own)
    ensures forall n :: n in c.own ==> n in snapshot && ClientAccepts(n) && Original(c, n, snapshot[n])
  {
    hide Cut, ClientAccepts;
  }

  // Nothing of before is gone; all that is new comes from the snapshot, under one of the
  // names; and each of these is back unless its call is among the failures.
  ghost predicate Restored(
    failures: set<Call>, snapshot: map<string, string>, names: seq<string>, before: map<string, string>,
    after: map<string, string>)
  {
    && Within(before, after)
    && (forall n :: n in after ==> n in before || (n in names && n in snapshot && after[n] == snapshot[n]))
    && (forall n :: n in names ==>
          && n in snapshot
          && (InstallSource(n, snapshot[n]) in failures || (n in after && after[n] == snapshot[n])))
  }

  lemma NothingRestored(failures: set<Call>, snapshot: map<string, string>, store: map<string, string>)
    ensures Restored(failures, snapshot, [], store, store)
  {
  }

  lemma StillAbsent(
    failures: set<Call>, snapshot: map<string, string>, names: seq<string>, name: string, before: map<string, string>,
    after: map<string, string>)
    requires Restored(failures, snapshot, names, before, after) && name !in names
    ensures name !in before ==> name !in after
  {
  }

  lemma RestoredOneMore(
    failures: set<Call>, more: set<Call>, snapshot: map<string, string>, names: seq<string>, name: string,
    before: map<string, string>, mid: map<string, string>, after: map<string, string>)
    requires name in snapshot && failures <= more
    requires Restored(failures, snapshot, names, before, mid)
    requires (after == mid && InstallSource(name, snapshot[name]) in more) ||
      (name !in mid && after == mid[name := snapshot[name]])
    ensures Restored(more, snapshot, names + [name], before, after)
  {
  }

  lemma NoneToReinstall(snapshot: map<string, string>)
    ensures Reinstalls([], snapshot) == []
  {
  }

  lemma OneToReinstall(names: seq<string>, name: string, snapshot: map<string, string>)
    requires name in snapshot
    ensures Reinstalls(names + [name], snapshot) == Reinstalls(names, snapshot) + [InstallSource(name, snapshot[name])]
  {
    assert (names + [name])[..|names|] == names;
  }

  // Put the snapshotted sources back.
  method RestoreSources(host: Host, ghost c: Context, names: seq<string>, snapshot: map<string, string>)
    returns (errs: seq<Error>)
    requires Underway(host, c) && host.phase.Rollback?
    requires Distinct(names) && forall n :: n in names ==> n in c.own
    requires IsSnapshot(snapshot, c.start.store, c.own) && Reachable(c.start.store, c.own)
    modifies host`store, host`trace, host`faults, host`said
    ensures Underway(host, c)
    ensures ReloadPhases(host.trace) == ReloadPhases(old(host.trace))
    ensures WentBack(LogOf(old(host.trace)), LogOf(host.trace), Reinstalls(names, snapshot))
    ensures host.said == old(host.said) + errs
    ensures Failures(old(host.trace)) <= Failures(host.trace) && Attempts(old(host.trace)) <= Attempts(host.trace)
    ensures Restored(Failures(host.trace), snapshot, names, old(host.store), host.store)
    ensures errs == [] ==> Restored({}, snapshot, names, old(host.store), host.store)
    ensures RollbackSourcesOk(host.trace) <==> RollbackSourcesOk(old(host.trace)) && errs == []
    ensures StopsOk(host.trace) == StopsOk(old(host.trace))
    ensures host.faults >= old(host.faults)
    ensures (forall n :: n in names ==> n !in old(host.store)) ==> host.faults == old(host.faults) + |errs|
  {
    hide *;
    errs := [];
    WentNowhere(LogOf(host.trace));
    NoneToReinstall(snapshot);
    NothingRestored(Failures(host.trace), snapshot, host.store);
    NothingRestored({}, snapshot, host.store);
    assert names[..0] == [];
    for i := 0 to |names|
      invariant Underway(host, c)
      invariant ReloadPhases(host.trace) == ReloadPhases(old(host.trace))
      invariant WentBack(LogOf(old(host.trace)), LogOf(host.trace), Reinstalls(names[..i], snapshot))
      invariant host.said == old(host.said) + errs
      invariant Failures(old(host.trace)) <= Failures(host.trace) && Attempts(old(host.trace)) <= Attempts(host.trace)
      invariant Restored(Failures(host.trace), snapshot, names[..i], old(host.store), host.store)
      invariant errs == [] ==> Restored({}, snapshot, names[..i], old(host.store), host.store)
      invariant RollbackSourcesOk(host.trace) <==> RollbackSourcesOk(old(host.trace)) && errs == []
      invariant StopsOk(host.trace) == StopsOk(old(host.trace))
      invariant host.faults >= old(host.faults)
      invariant (forall n :: n in names ==> n !in old(host.store)) ==> host.faults == old(host.faults) + |errs|
    {
      DistinctAt(names, i);
      assert names[i] in names && names[..i + 1] == names[..i] + [names[i]];
      var e := RestoreOne(
        host, c, names[i], snapshot, names[..i], old(host.store), errs == [], LogOf(old(host.trace)));
      if e.Some? {
        errs := errs + [e.value];
      }
    }
    assert names[..|names|] == names;
  }

  // Put one source back, after those of the names before it.
  method RestoreOne(
    host: Host, ghost c: Context, name: string, snapshot: map<string, string>, ghost done: seq<string>,
    ghost before: map<string, string>, ghost clean: bool, ghost log: Log)
    returns (e: Option<Error>)
    requires WentBack(log, LogOf(host.trace), Reinstalls(done, snapshot))
    requires Underway(host, c) && host.phase.Rollback? && name in c.own && name !in done
    requires IsSnapshot(snapshot, c.start.store, c.own) && Reachable(c.start.store, c.own)
    requires Restored(Failures(host.trace), snapshot, done, before, host.store)
    requires clean ==> Restored({}, snapshot, done, before, host.store)
    modifies host`store, host`trace, host`faults, host`said
    ensures Underway(host, c)
    ensures ReloadPhases(host.trace) == ReloadPhases(old(host.trace))
    ensures WentBack(log, LogOf(host.trace), Reinstalls(done + [name], snapshot))
    ensures host.said == old(host.said) + if e.Some? then [e.value] else []
    ensures Failures(old(host.trace)) <= Failures(host.trace) && Attempts(old(host.trace)) <= Attempts(host.trace)
    ensures Restored(Failures(host.trace), snapshot, done + [name], before, host.store)
    ensures clean && e.None? ==> Restored({}, snapshot, done + [name], before, host.store)
    ensures RollbackSourcesOk(host.trace) <==> RollbackSourcesOk(old(host.trace)) && e.None?
    ensures StopsOk(host.trace) == StopsOk(old(host.trace))
    ensures host.faults >= old(host.faults)
    ensures name !in before ==> host.faults == old(host.faults) + if e.Some? then 1 else 0
  {
    SnapshotIsOriginal(c, snapshot);
    hide *;
    ghost var mid, failures := host.store, Failures(host.trace);
    StillAbsent(failures, snapshot, done, name, before, mid);
    OneToReinstall(done, name, snapshot);
    ghost var was := LogOf(host.trace);
    e := InstallOne(host, c, name, snapshot[name]);
    WentBackOne(log, was, Reinstalls(done, snapshot), InstallSource(name, snapshot[name]), e.None?);
    RestoredOneMore(failures, Failures(host.trace), snapshot, done, name, before, mid, host.store);
    if clean && e.None? {
      RestoredOneMore({}, {}, snapshot, done, name, before, mid, host.store);
    }
  }

  lemma RanBackOneMore(
    before: Log, mid: Log, after: Log, units: seq<Unit>, u: Unit, restart: bool, e: Option<Error>)
    requires WentBack(before, mid, Runs(units, restart))
    requires RanOnce(mid, after, Rollback, RunCall(u, restart), e, UnitFailed(u))
    ensures WentBack(before, after, Runs(units + [u], restart))
  {
    assert (units + [u])[..|units|] == units;
  }

  // Bring the previous units back, with Restart after an update and Start after a remove.
  method BringBack(host: Host, ghost c: Context, units: seq<Unit>, restart: bool) returns (errs: seq<Error>)
    requires Underway(host, c) && host.phase.Rollback? && forall u :: u in units ==> u in Concerned(c)
    requires restart || forall u :: u in units ==> u !in host.running
    modifies host`running, host`trace, host`faults, host`said
    ensures Underway(host, c)
    ensures ReloadPhases(host.trace) == ReloadPhases(old(host.trace))
    ensures WentBack(LogOf(old(host.trace)), LogOf(host.trace), Runs(units, restart))
    ensures host.said == old(host.said) + errs
    ensures Failures(old(host.trace)) <= Failures(host.trace) && Attempts(old(host.trace)) <= Attempts(host.trace)
    ensures forall u :: u in units ==> RunCall(u, restart) in Attempts(host.trace)
    ensures forall u :: u in units && u in host.running && RunCall(u, restart) !in Failures(host.trace) ==>
      host.UpToDate(u)
    ensures RollbackSourcesOk(host.trace) == RollbackSourcesOk(old(host.trace))
    ensures StopsOk(host.trace) == StopsOk(old(host.trace))
    ensures errs == [] ==> forall u :: u in units ==> host.UpToDate(u)
    ensures SameBut(old(host.running), host.running, UnitSet(units))
    ensures host.faults >= old(host.faults)
    ensures (forall u :: u in units ==> host.CanRun(u)) && errs != [] ==> host.faults > old(host.faults)
  {
    hide Underway, StopsOk, RollbackSourcesOk, ReloadPhases, Attempts, Failures, LogOf, Runs;
    hide WentBack, RanOnce, Runnable, RunCall, Concerned;
    errs := [];
    WentNowhere(LogOf(host.trace));
    NoRuns(restart);
    assert units[..0] == [];
    for i := 0 to |units|
      invariant Underway(host, c)
      invariant ReloadPhases(host.trace) == ReloadPhases(old(host.trace))
      invariant WentBack(LogOf(old(host.trace)), LogOf(host.trace), Runs(units[..i], restart))
      invariant host.said == old(host.said) + errs
      invariant Failures(old(host.trace)) <= Failures(host.trace) && Attempts(old(host.trace)) <= Attempts(host.trace)
      invariant forall j :: 0 <= j < i ==> RunCall(units[j], restart) in Attempts(host.trace)
      invariant forall j :: 0 <= j < i && units[j] in host.running ==>
        RunCall(units[j], restart) in Failures(host.trace) || host.UpToDate(units[j])
      invariant RollbackSourcesOk(host.trace) == RollbackSourcesOk(old(host.trace))
      invariant StopsOk(host.trace) == StopsOk(old(host.trace))
      invariant errs == [] ==> forall j :: 0 <= j < i ==> host.UpToDate(units[j])
      invariant !restart ==> forall u :: u in host.running && u !in old(host.running) ==> host.UpToDate(u)
      invariant SameBut(old(host.running), host.running, UnitSet(units))
      invariant host.faults >= old(host.faults)
      invariant (forall u :: u in units ==> host.CanRun(u)) && errs != [] ==> host.faults > old(host.faults)
    {
      var u := units[i];
      assert u in units;
      assert units[..i + 1] == units[..i] + [u] && units[..i + 1][..i] == units[..i];
      ghost var log := LogOf(host.trace);
      var e := RunAndVerify(host, c, u, restart);
      RanBackOneMore(LogOf(old(host.trace)), log, LogOf(host.trace), units[..i], u, restart, e);
      if e.Some? {
        errs := errs + [e.value];
      }
    }
    assert units[..|units|] == units;
  }
}

// Install, update and remove as transactions over Podman and systemd, and the four
// rollbacks that undo them.
module Engines {
  import opened QuadletNames
  import opened Ordering
  import opened Model
  import opened Text
  import opened Paths
  import opened Directories
  import opened Layouts
  import opened Hosts
  import opened Journal
  import opened Moves

  lemma PutBack(
    start: map<string, string>, own: set<string>, removed: seq<string>, snapshot: map<string, string>,
    before: map<string, string>, after: map<string, string>)
    requires IsSnapshot(snapshot, start, own) && Without(start, removed, before)
    requires Restored({}, snapshot, removed, before, after) && forall n :: n in removed ==> n in own
    ensures Returned(start, own, after)
  {
    hide Cut;
  }

  // The store between removing the record's sources and finishing the plan's: foreign
  // sources plus the ones installed so far.
  ghost predicate Replacing(c: Context, installed: seq<string>, store: map<string, string>) {
    && (forall n :: n in store <==> (n in c.start.store && n !in c.own) || n in installed)
    && (forall n :: n in installed ==> ClientAccepts(n) && (n !in c.start.store || n in c.own))
  }

  lemma PutAllBack(
    c: Context, installed: seq<string>, force: bool, names: seq<string>, snapshot: map<string, string>,
    before: map<string, string>, mid: map<string, string>, running: map<Unit, string>, after: map<string, string>)
    requires IsSnapshot(snapshot, c.start.store, c.own) && Lists(names, c.own)
    requires Between(c, before) && Replacing(c, installed, before)
    requires Taken({}, installed, force, before, mid, running) && Restored({}, snapshot, names, mid, after)
    ensures after == Reread(c.start.store, c.own)
    ensures Returned(c.start.store, c.own, after)
    ensures c.own == {} ==> after == c.start.store
  {
    hide Cut;
    forall n | n in c.start.store
      ensures n in after && after[n] == if n in c.own then Cut(c.start.store[n]) else c.start.store[n]
    {
      if n in c.own {
        assert n in names;
      } else {
        assert n in before && n in mid;
      }
    }
    assert after == Reread(c.start.store, c.own);
  }

  // ---- where systemd stands at the end ----

  // Nothing but the own units was touched to any effect: the others are as they were, but
  // that one under a name that was free may have been stopped.
  ghost predicate OthersAsBefore(c: Context, running: map<Unit, string>) {
    && (forall u :: u in running && u !in c.mine ==> u in c.start.running && running[u] == c.start.running[u])
    && (forall u :: u in c.start.running && u !in c.mine ==>
          u in running || (u.Service? && u.name !in c.start.store.Keys - c.own))
  }

  // After a clean rollback: the definitions are the sources now stored, all own units run
  // them, and the others are as before.
  ghost predicate BackInService(generates: (string, string) -> bool, c: Context, v: View) {
    && v.loaded == v.store
    && OthersAsBefore(c, v.running)
    && forall u :: u in c.mine ==> Fresh(generates, v.loaded, v.running, u)
  }

  // Without a rollback, a failure leaves sources and definitions alone; of the own units,
  // some may have been stopped.
  ghost predicate OnlyStopped(c: Context, v: View) {
    v.loaded == c.start.loaded && v.store == c.start.store && Stopped(c.start.running, v.running, c.mine)
  }

  function ToStart(plan: Plan): set<Unit> {
    if plan.operation.Remove? then {} else Wanted(plan.resources)
  }

  // After a plan went through: the definitions are the sources now stored; every unit to be
  // started is up, in an update on its new source; the other own units are down, and all
  // others are as before. An install leaves every running unit alone.
  ghost predicate InService(generates: (string, string) -> bool, c: Context, plan: Plan, v: View) {
    var wanted := ToStart(plan);
    && v.loaded == v.store
    && (forall u :: u in wanted ==>
          && u in v.running
          && (plan.operation.Update? || u !in c.start.running ==> Fresh(generates, v.loaded, v.running, u)))
    && (forall u :: u in v.running ==>
          || (u !in c.mine && u in c.start.running && v.running[u] == c.start.running[u])
          || (u in wanted && Fresh(generates, v.loaded, v.running, u)))
    && (forall u :: u in c.start.running && u !in c.mine ==> u in v.running)
    && (plan.operation.Install? ==> forall u :: u in c.start.running ==> SameAt(c.start.running, v.running, u))
  }

  // A clean rollback of an install has stopped the units of the sources it took back.
  ghost predicate WithoutFirst(c: Context, rs: seq<Rendered>, running: map<Unit, string>) {
    exists k: nat :: k <= |rs| && running == c.start.running - Services(Names(rs[..k]))
  }

  // Under control, a unit the plan names but the record does not was not running before.
  lemma OthersUnmoved(generates: (string, string) -> bool, c: Context, record: Instance, running: map<Unit, string>)
    requires WorksOn(generates, c, record) && c.controlled
    requires Untouched(c, running) && OthersAsBefore(c, running)
    ensures SameBut(c.start.running, running, c.mine)
  {
    hide Cut, ClientAccepts;
    forall p | p in c.offers && Service(p.0) in c.start.running && p.0 !in c.start.store.Keys - c.own
      ensures Service(p.0) in c.mine
    {
      assert p.0 in record.resources && record.resources[p.0].unit == Service(p.0);
    }
  }

  // In a controlled transaction, a clean rollback gives the units back as they were exactly
  // when all own units had been running their sources: it starts those that were not.
  lemma ServiceIsBackIffItWasUp(generates: (string, string) -> bool, c: Context, record: Instance, v: View)
    requires WorksOn(generates, c, record) && c.controlled
    requires Untouched(c, v.running) && BackInService(generates, c, v) && Returned(c.start.store, c.own, v.store)
    ensures v.running == c.start.running <==> AllRunning(c.mine, v.store, c.start.running)
    ensures Short(c.start.store, c.own) ==>
      (v.running == c.start.running <==> AllRunning(c.mine, c.start.store, c.start.running))
  {
    RereadIsWholeIffShort(c.start.store, c.own);
    OthersUnmoved(generates, c, record, v.running);
    BackMeansFresh(generates, c, v);
    hide *;
    AllSameIff(c.mine, v.store, c.start.running, v.running);
  }

  lemma BackMeansFresh(generates: (string, string) -> bool, c: Context, v: View)
    requires BackInService(generates, c, v)
    ensures AllRunning(c.mine, v.store, v.running)
  {
  }

  lemma AllSameIff(units: set<Unit>, sources: map<string, string>, before: map<Unit, string>, after: map<Unit, string>)
    requires SameBut(before, after, units) && AllRunning(units, sources, after)
    ensures after == before <==> AllRunning(units, sources, before)
  {
    if AllRunning(units, sources, before) {
      assert after.Keys == before.Keys;
    }
  }

  // An install that is rolled back cleanly gives the units back as they were exactly when
  // none of those it took back had been running.
  lemma InstallServiceIsBackIff(c: Context, rs: seq<Rendered>, running: map<Unit, string>, k: nat)
    requires k <= |rs| && running == c.start.running - Services(Names(rs[..k]))
    ensures running == c.start.running <==> forall u :: u in Services(Names(rs[..k])) ==> u !in c.start.running
  {
  }

  // ---- what is called, in order, and what is reported ----

  // Refusals that need nothing to have gone wrong.
  predicate Refused(e: Error) {
    e.NotFound? || e.PlanExpired? || e.DigestMismatch? || e.DriftDetected?
  }

  function CauseOf(e: Error): Error {
    if e.RollbackFailed? then e.cause else e
  }

  function Cause(e: Option<Error>): Option<Error> {
    if e.Some? then Some(CauseOf(e.value)) else None
  }

  // The errors an outcome passes on: the cause, and what went wrong in rollback.
  function Told(e: Option<Error>): seq<Error> {
    if e.Some? && e.value.RollbackFailed? then Voiced(Some(e.value.cause)) + e.value.during else Voiced(e)
  }

  function During(e: Error): seq<Error> {
    if e.RollbackFailed? then e.during else []
  }

  function ServingCalls(rs: seq<Rendered>, restart: bool): seq<Call> {
    [Reload] + Runs(WantedInOrder(rs), restart)
  }

  // Every call a plan makes before it saves its record, given the record's units and names.
  function Script(plan: Plan, units: seq<Unit>, names: seq<string>): seq<Call> {
    match plan.operation
    case Install => Installs(plan.resources) + ServingCalls(plan.resources, false)
    case Update => Stops(units) + Removals(names) + Installs(plan.resources) + ServingCalls(plan.resources, true)
    case Remove => Stops(units) + Removals(names) + [Reload]
    case Other(_) => []
  }

  // Going forward exactly these calls were made, and one that failed reported e; what was
  // called in rollback is left open.
  ghost predicate WentForth(before: Log, after: Log, calls: seq<Call>, e: Option<Error>) {
    && after.forward == before.forward + calls
    && forall call :: call in after.refused ==> call in before.refused || (e.Some? && ErrorOf(call) == e.value)
  }

  // Some of these calls were made, in order.
  ghost predicate WentSome(before: Log, after: Log, script: seq<Call>, e: Option<Error>) {
    exists calls :: calls <= script && WentForth(before, after, calls, e)
  }

  const NoCalls := Log([], [], {})

  // A plan that went through has made all its calls and then tried to save its record; one
  // that did not has made the first of them. None failed but the one whose error it reports.
  ghost predicate Goes(log: Log, script: seq<Call>, e: Option<Error>) {
    if Through(e) then exists r :: WentForth(NoCalls, log, script + [SaveRecord(r)], e)
    else WentSome(NoCalls, log, script, Cause(e))
  }

  ghost predicate Followed(
    fileName: string -> string, records: map<string, Instance>, plan: Plan, log: Log, e: Option<Error>)
  {
    match plan.operation
    case Install => Goes(log, Script(plan, [], []), e)
    case Other(_) => log == NoCalls
    case _ =>
      || (log == NoCalls && !Through(e))
      || GoesFor(fileName, ResourcesUnder(records, plan.instanceId), plan, log, e)
  }

  ghost predicate GoesFor(
    fileName: string -> string, m: map<string, ResourceState>, plan: Plan, log: Log, e: Option<Error>)
  {
    exists units, names ::
      ListsUnits(fileName, m, units) && Lists(names, m.Keys) && Goes(log, Script(plan, units, names), e)
  }

  lemma UpdateScript(plan: Plan, units: seq<Unit>, names: seq<string>)
    requires plan.operation.Update?
    ensures var first, second, third :=
      Stops(units) + Removals(names), Installs(plan.resources), ServingCalls(plan.resources, true);
      Script(plan, units, names) == first + (second + third) == first + second + third
  {
  }

  // A plan that has made all its calls, saved its record or not.
  lemma WentThrough(
    fileName: string -> string, records: map<string, Instance>, plan: Plan, units: seq<Unit>, names: seq<string>,
    mid: Log, after: Log, record: Instance, e: Option<Error>)
    requires !plan.operation.Other? && Through(e)
    requires Went(NoCalls, mid, Script(plan, units, names), None) && Went(mid, after, [SaveRecord(record)], e)
    requires ScriptOf(fileName, records, plan, units, names)
    ensures Followed(fileName, records, plan, after, e)
  {
    hide Script, ListsUnits, Lists, ResourcesUnder;
    WentOn(NoCalls, mid, after, Script(plan, units, names), [SaveRecord(record)], e);
    WentIsForth(NoCalls, after, Script(plan, units, names) + [SaveRecord(record)], e);
    assert Goes(after, Script(plan, units, names), e);
  }

  lemma WentPartly(
    fileName: string -> string, records: map<string, Instance>, plan: Plan, units: seq<Unit>, names: seq<string>,
    after: Log, e: Option<Error>)
    requires !plan.operation.Other? && !Through(e)
    requires WentSome(NoCalls, after, Script(plan, units, names), Cause(e))
    requires ScriptOf(fileName, records, plan, units, names)
    ensures Followed(fileName, records, plan, after, e)
  {
    hide Script, ListsUnits, Lists, ResourcesUnder, WentSome;
    assert Goes(after, Script(plan, units, names), e);
  }

  // The units and names are those of the plan's record, in order.
  ghost predicate ScriptOf(
    fileName: string -> string, records: map<string, Instance>, plan: Plan, units: seq<Unit>, names: seq<string>)
  {
    var m := ResourcesUnder(records, plan.instanceId);
    if plan.operation.Install? then units == [] && names == []
    else ListsUnits(fileName, m, units) && Lists(names, m.Keys)
  }

  // What was called and what was reported explain how a plan ended, once it was let through.
  ghost predicate Explained(
    host: Host, records: map<string, Instance>, plan: Plan, target: map<string, string>, e: Option<Error>)
    reads host`trace, host`said
  {
    && Followed(host.fileName, records, plan, LogOf(host.trace), e)
    && host.said == Told(e)
    && (e.Some? ==> NotGenerated(host.generates, plan, target, CauseOf(e.value)) && !Refused(e.value))
  }

  lemma OfRecord(
    fileName: string -> string, records: map<string, Instance>, plan: Plan, units: seq<Unit>, names: seq<string>)
    requires plan.instanceId in records && var m := records[plan.instanceId].resources;
      ListsUnits(fileName, m, units) && Lists(names, m.Keys)
    ensures !plan.operation.Install? ==> ScriptOf(fileName, records, plan, units, names)
  {
  }

  // Going forward the first calls of a script were made and no others: all of them, or those
  // up to a failure.
  ghost predicate WentUpTo(before: Log, after: Log, script: seq<Call>, e: Option<Error>) {
    exists calls :: calls <= script && Went(before, after, calls, e) && (e.None? ==> calls == script)
  }

  lemma UpToAndBack(before: Log, mid: Log, after: Log, back: seq<Call>, script: seq<Call>, e: Option<Error>)
    requires WentUpTo(before, mid, script, e) && WentBack(mid, after, back)
    ensures WentSome(before, after, script, e)
  {
    hide Went, WentSome;
    var calls :| calls <= script && Went(before, mid, calls, e);
    ForthAndBack(before, mid, after, calls, back, script, e);
  }

  lemma UpToTheEnd(before: Log, after: Log, script: seq<Call>)
    requires WentUpTo(before, after, script, None)
    ensures Went(before, after, script, None)
  {
  }

  // An install that went no further than its sources.
  lemma InstallScriptBegun(before: Log, after: Log, plan: Plan, k: nat, e: Option<Error>)
    requires plan.operation.Install? && k <= |plan.resources| && e.Some?
    requires Went(before, after, Installs(plan.resources[..k]), e)
    ensures WentUpTo(before, after, Script(plan, [], []), e)
  {
    hide Installs, ServingCalls, Went;
    InstallsPrefix(plan.resources, k);
  }

  lemma InstallScriptServed(before: Log, mid: Log, after: Log, plan: Plan, e: Option<Error>)
    requires plan.operation.Install? && Went(before, mid, Installs(plan.resources), None)
    requires WentUpTo(mid, after, ServingCalls(plan.resources, false), e)
    ensures WentUpTo(before, after, Script(plan, [], []), e)
  {
    hide Installs, ServingCalls, Went;
    var first, all := Installs(plan.resources), ServingCalls(plan.resources, false);
    var calls :| calls <= all && Went(mid, after, calls, e) && (e.None? ==> calls == all);
    WentOn(before, mid, after, first, calls, e);
    assert first + calls <= first + all == Script(plan, [], []);
  }

  lemma ServingScript(
    generates: (string, string) -> bool, store: map<string, string>, rs: seq<Rendered>, started: seq<Unit>,
    e: Option<Error>, before: Log, after: Log)
    requires ServedUpTo(generates, store, rs, started, e)
    requires Went(before, after, [Reload] + Runs(started, false), e)
    ensures WentUpTo(before, after, ServingCalls(rs, false), e)
  {
    hide ServedUpTo, Went, Runs, ServingCalls;
    ServedIsPrefix(generates, store, rs, started, e, false);
  }

  lemma RemoveScript(plan: Plan, units: seq<Unit>, names: seq<string>)
    requires plan.operation.Remove?
    ensures Script(plan, units, names) == Stops(units) + Removals(names) + [Reload]
  {
  }

  lemma PartlyExplained(
    host: Host, records: map<string, Instance>, plan: Plan, target: map<string, string>, units: seq<Unit>,
    names: seq<string>, e: Option<Error>)
    requires !plan.operation.Other? && !Through(e) && !Refused(e.value) && host.said == Told(e)
    requires WentSome(NoCalls, LogOf(host.trace), Script(plan, units, names), Cause(e))
    requires ScriptOf(host.fileName, records, plan, units, names)
    requires NotGenerated(host.generates, plan, target, CauseOf(e.value))
    ensures Explained(host, records, plan, target, e)
  {
    WentPartly(host.fileName, records, plan, units, names, LogOf(host.trace), e);
  }

  lemma FullyExplained(
    host: Host, records: map<string, Instance>, plan: Plan, target: map<string, string>, units: seq<Unit>,
    names: seq<string>, mid: Log, record: Instance, e: Option<Error>)
    requires !plan.operation.Other? && Through(e) && host.said == if e.Some? then [e.value] else []
    requires Went(NoCalls, mid, Script(plan, units, names), None)
    requires Went(mid, LogOf(host.trace), [SaveRecord(record)], e)
    requires ScriptOf(host.fileName, records, plan, units, names)
    ensures Explained(host, records, plan, target, e)
  {
    WentThrough(host.fileName, records, plan, units, names, mid, LogOf(host.trace), record, e);
    SavedTold(host.generates, plan, target, e);
  }

  lemma SavedTold(generates: (string, string) -> bool, plan: Plan, target: map<string, string>, e: Option<Error>)
    requires Through(e)
    ensures Told(None) == [] && Told(e) == if e.Some? then [e.value] else []
    ensures e.Some? ==> NotGenerated(generates, plan, target, CauseOf(e.value)) && !Refused(e.value)
  {
  }

  // A plan that gave up before its first call.
  lemma NothingCalled(host: Host, records: map<string, Instance>, plan: Plan, target: map<string, string>, e: Error)
    requires host.trace == [] && host.said == [e]
    requires !Through(Some(e)) && !e.RollbackFailed? && !e.UnitNotGenerated? && !Refused(e)
    ensures Explained(host, records, plan, target, Some(e))
  {
    hide Script;
    assert LogOf([]) == NoCalls;
    assert [] <= Script(plan, [], []) && WentForth(NoCalls, NoCalls, [], Some(e));
  }

  // The record saved bears a date between these two.
  predicate Dated(id: string, plan: Plan, e: Option<Error>, records: map<string, Instance>, since: nat, now: nat) {
    Through(e) && e != Some(SaveFailed) && !plan.operation.Other? ==>
      id in records && since <= records[id].updatedAt <= now
  }

  lemma WentIsForth(before: Log, after: Log, calls: seq<Call>, e: Option<Error>)
    requires Went(before, after, calls, e)
    ensures WentForth(before, after, calls, e) && WentSome(before, after, calls, e)
  {
    assert calls <= calls && WentForth(before, after, calls, e);
  }

  // Whatever is then called in rollback, and more of the script that is not reached.
  lemma ForthAndBack(
    before: Log, mid: Log, after: Log, calls: seq<Call>, back: seq<Call>, script: seq<Call>, e: Option<Error>)
    requires Went(before, mid, calls, e) && WentBack(mid, after, back) && calls <= script
    ensures WentSome(before, after, script, e)
  {
    assert WentForth(before, after, calls, e);
  }

  lemma SomeOfMore(before: Log, after: Log, script: seq<Call>, more: seq<Call>, e: Option<Error>)
    requires WentSome(before, after, script, e)
    ensures WentSome(before, after, script + more, e)
  {
    var calls :| calls <= script && WentForth(before, after, calls, e);
    assert calls <= script + more;
  }

  // All of a script and then some of the next.
  lemma AllThenSome(
    before: Log, mid: Log, after: Log, script: seq<Call>, more: seq<Call>, e: Option<Error>)
    requires Went(before, mid, script, None) && WentSome(mid, after, more, e)
    ensures WentSome(before, after, script + more, e)
  {
    var calls :| calls <= more && WentForth(mid, after, calls, e);
    assert WentForth(before, after, script + calls, e) && script + calls <= script + more;
  }

  lemma {:induction false} StopsPrefix(units: seq<Unit>, k: nat)
    requires k <= |units|
    ensures Stops(units[..k]) <= Stops(units)
  {
    if k == |units| {
      assert units[..k] == units;
    } else {
      assert units[..|units| - 1][..k] == units[..k];
      StopsPrefix(units[..|units| - 1], k);
    }
  }

  lemma {:induction false} RemovalsPrefix(names: seq<string>, k: nat)
    requires k <= |names|
    ensures Removals(names[..k]) <= Removals(names)
  {
    if k == |names| {
      assert names[..k] == names;
    } else {
      assert names[..|names| - 1][..k] == names[..k];
      RemovalsPrefix(names[..|names| - 1], k);
    }
  }

  lemma {:induction false} InstallsPrefix(rs: seq<Rendered>, k: nat)
    requires k <= |rs|
    ensures Installs(rs[..k]) <= Installs(rs)
  {
    if k == |rs| {
      assert rs[..k] == rs;
    } else {
      assert rs[..|rs| - 1][..k] == rs[..k];
      InstallsPrefix(rs[..|rs| - 1], k);
    }
  }

  lemma {:induction false} WantedPrefix(rs: seq<Rendered>, k: nat)
    requires k <= |rs|
    ensures WantedInOrder(rs[..k]) <= WantedInOrder(rs)
  {
    if k == |rs| {
      assert rs[..k] == rs;
    } else {
      assert rs[..|rs| - 1][..k] == rs[..k];
      WantedPrefix(rs[..|rs| - 1], k);
    }
  }

  lemma {:induction false} RunsPrefix(units: seq<Unit>, k: nat, restart: bool)
    requires k <= |units|
    ensures Runs(units[..k], restart) <= Runs(units, restart)
  {
    if k == |units| {
      assert units[..k] == units;
    } else {
      assert units[..|units| - 1][..k] == units[..k];
      RunsPrefix(units[..|units| - 1], k, restart);
    }
  }

  // As far as it came, serving made the first of its calls; all of them, if it did not fail.
  lemma ServedIsPrefix(
    generates: (string, string) -> bool, store: map<string, string>, rs: seq<Rendered>, started: seq<Unit>,
    e: Option<Error>, restart: bool)
    requires ServedUpTo(generates, store, rs, started, e)
    ensures [Reload] + Runs(started, restart) <= ServingCalls(rs, restart)
    ensures e.None? ==> [Reload] + Runs(started, restart) == ServingCalls(rs, restart)
  {
    hide Runs, WantedInOrder;
    var all := WantedInOrder(rs);
    StartedIsPrefix(generates, store, rs, started, e);
    RunsPrefix(all, |started|, restart);
    assert all[..|started|] == started;
  }

  lemma StartedIsPrefix(
    generates: (string, string) -> bool, store: map<string, string>, rs: seq<Rendered>, started: seq<Unit>,
    e: Option<Error>)
    requires ServedUpTo(generates, store, rs, started, e)
    ensures started <= WantedInOrder(rs) && (e.None? ==> started == WantedInOrder(rs))
  {
    if e.Some? && BroughtUpTo(generates, store, rs, started, e) {
      var k: nat :| k < |rs| && rs[k].start && var u := Service(rs[k].name);
        if e.value.UnitNotGenerated? then
          && e.value.name == rs[k].name && started == WantedInOrder(rs[..k])
          && !(rs[k].name in store && generates(rs[k].name, store[rs[k].name]))
        else
          started == WantedInOrder(rs[..k]) + [u] && (e.value == UnitFailed(u) || e.value == UnitNotActive(u));
      WantedPrefix(rs, k);
      WantedPrefix(rs, k + 1);
      assert rs[..k + 1][..k] == rs[..k];
    }
  }

  // e names a resource the plan wants started whose source generates no unit.
  ghost predicate NotGenerated(
    generates: (string, string) -> bool, plan: Plan, store: map<string, string>, e: Error)
  {
    e.UnitNotGenerated? ==>
      exists r ::
        && r in plan.resources && r.start && r.name == e.name
        && !(r.name in store && generates(r.name, store[r.name]))
  }

  lemma NeverUngenerated(generates: (string, string) -> bool, plan: Plan, store: map<string, string>, e: Error)
    requires !e.UnitNotGenerated?
    ensures NotGenerated(generates, plan, store, e)
  {
  }

  lemma ServedNames(
    generates: (string, string) -> bool, store: map<string, string>, plan: Plan, started: seq<Unit>, e: Option<Error>)
    requires ServedUpTo(generates, store, plan.resources, started, e)
    ensures e.Some? ==> NotGenerated(generates, plan, store, e.value)
  {
    if e.Some? && e.value.UnitNotGenerated? {
      assert BroughtUpTo(generates, store, plan.resources, started, e);
      var k: nat :| k < |plan.resources| && plan.resources[k].start && e.value.name == plan.resources[k].name &&
        !(plan.resources[k].name in store && generates(plan.resources[k].name, store[plan.resources[k].name]));
      assert plan.resources[k] in plan.resources;
    }
  }

  // ---- what a rollback owes, whatever of it fails ----

  ghost predicate Unremoved(tr: seq<Step>, n: string) {
    RemoveSource(n, true) in Failures(tr) || RemoveSource(n, false) in Failures(tr)
  }

  ghost predicate Unstopped(tr: seq<Step>, u: Unit) {
    StopUnit(u) in Failures(tr) || (u.Service? && RemoveSource(u.name, true) in Failures(tr))
  }

  // Every starting source is back, but those whose own reinstallation failed; and nothing
  // else is left over, but what could not be removed.
  ghost predicate SourcesBack(c: Context, tr: seq<Step>, store: map<string, string>) {
    && (forall n :: n in c.start.store ==>
          || (n in store && Original(c, n, store[n]))
          || (n in c.own && InstallSource(n, Cut(c.start.store[n])) in Failures(tr)))
    && (forall n :: n in store ==> Original(c, n, store[n]) || Unremoved(tr, n))
  }

  // Every own unit has been told to run, by restarting it in an update and starting it in a
  // remove, and runs what is loaded unless that call failed or it went down.
  ghost predicate Retried(
    generates: (string, string) -> bool, tr: seq<Step>, loaded: map<string, string>, running: map<Unit, string>,
    u: Unit, restart: bool)
  {
    && RunCall(u, restart) in Attempts(tr)
    && (u in running ==> Fresh(generates, loaded, running, u) || RunCall(u, restart) in Failures(tr))
  }

  ghost predicate OwnRetried(
    generates: (string, string) -> bool, c: Context, tr: seq<Step>, loaded: map<string, string>,
    running: map<Unit, string>, restart: bool)
  {
    forall u :: u in c.mine ==> Retried(generates, tr, loaded, running, u, restart)
  }

  // No other unit is running that was not before, but what could not be stopped; and none has
  // gone down, but under a name that was free.
  ghost predicate OthersBack(c: Context, tr: seq<Step>, running: map<Unit, string>) {
    && (forall u :: u in running && u !in c.mine ==>
          (u in c.start.running && running[u] == c.start.running[u]) || Unstopped(tr, u))
    && (forall u :: u in c.start.running && u !in c.mine ==>
          u in running || (u.Service? && u.name !in c.start.store.Keys - c.own))
  }

  // A rollback goes on after every failure: each thing it owes is done unless its own call
  // failed.
  ghost predicate BestEffort(generates: (string, string) -> bool, c: Context, tr: seq<Step>, v: View, restart: bool) {
    && SourcesBack(c, tr, v.store)
    && (v.loaded == v.store || Reload in Failures(tr))
    && OwnRetried(generates, c, tr, v.loaded, v.running, restart)
    && OthersBack(c, tr, v.running)
  }

  lemma SourcesStayBack(c: Context, tr: seq<Step>, more: seq<Step>, store: map<string, string>)
    requires SourcesBack(c, tr, store) && Failures(tr) <= Failures(more)
    ensures SourcesBack(c, more, store)
  {
    hide Original, Failures, Cut;
  }

  // How a rollback ends: with the bare cause, and then everything is back, or with the
  // cause marked "rollback failed". Even then the sources are back unless one of the
  // rollback's own source calls failed, and each thing is as BestEffort says.
  ghost predicate RolledBack(host: Host, c: Context, cause: Error, e: Error, restart: bool)
    reads host`trace, host`store, host`loaded, host`running, host`records
  {
    && (e == cause || (e.RollbackFailed? && e.cause == cause))
    && Rollback in ReloadPhases(host.trace)
    && (RollbackSourcesOk(host.trace) ==> Returned(c.start.store, c.own, host.store))
    && (e == cause ==> RollbackSourcesOk(host.trace) && BackInService(host.generates, c, host.Now()))
    && BestEffort(host.generates, c, host.trace, host.Now(), restart)
  }

  ghost predicate AllDown(units: set<Unit>, running: map<Unit, string>) {
    forall u :: u in units ==> u !in running
  }

  // The units of these resources, in the order of the names.
  function UnitsAlong(m: map<string, ResourceState>, names: seq<string>): seq<Unit>
    requires forall n :: n in names ==> n in m
  {
    if names == [] then
      []
    else
      var last := names[|names| - 1];
      assert forall n :: n in names[..|names| - 1] ==> n in names;
      UnitsAlong(m, names[..|names| - 1]) + if m[last].unit == NoUnit then [] else [m[last].unit]
  }

  lemma {:induction false} UnitsAlongNames(m: map<string, ResourceState>, names: seq<string>, u: Unit)
    requires forall n :: n in names ==> n in m
    ensures u in UnitsAlong(m, names) <==> u != NoUnit && exists n :: n in names && m[n].unit == u
  {
    if names != [] {
      var k := |names| - 1;
      assert names == names[..k] + [names[k]];
      UnitsAlongNames(m, names[..k], u);
    }
  }

  // ---- the order in which units are stopped ----

  function FileOf(fileName: string -> string, u: Unit): string {
    if u.Service? then fileName(u.name) else ""
  }

  ghost predicate InFileOrder(fileName: string -> string, units: seq<Unit>) {
    forall i, j :: 0 <= i < j < |units| ==> !Less(FileOf(fileName, units[j]), FileOf(fileName, units[i]))
  }

  // The units of these resources, one for each that has one, sorted by what systemd calls
  // them.
  ghost predicate ListsUnits(fileName: string -> string, m: map<string, ResourceState>, units: seq<Unit>) {
    && InFileOrder(fileName, units) && UnitSet(units) == UnitsOf(m)
    && exists names :: Lists(names, m.Keys) && multiset(units) == multiset(UnitsAlong(m, names))
  }

  function PlaceUnit(fileName: string -> string, units: seq<Unit>, u: Unit): seq<Unit> {
    if units == [] || Less(FileOf(fileName, u), FileOf(fileName, units[0])) then [u] + units
    else [units[0]] + PlaceUnit(fileName, units[1..], u)
  }

  lemma {:induction false} PlacedUnits(fileName: string -> string, units: seq<Unit>, u: Unit)
    ensures multiset(PlaceUnit(fileName, units, u)) == multiset(units) + multiset{u}
    ensures forall v :: v in PlaceUnit(fileName, units, u) <==> v in units || v == u
  {
    hide Less;
    if units != [] && !Less(FileOf(fileName, u), FileOf(fileName, units[0])) {
      PlacedUnits(fileName, units[1..], u);
      assert units == [units[0]] + units[1..];
    }
  }

  // No unit of the list is called something less than f.
  ghost predicate NoneBelow(fileName: string -> string, units: seq<Unit>, f: string) {
    forall v :: v in units ==> !Less(FileOf(fileName, v), f)
  }

  lemma InFileOrderFromHead(fileName: string -> string, units: seq<Unit>)
    requires units != []
    ensures InFileOrder(fileName, units) <==>
      InFileOrder(fileName, units[1..]) && NoneBelow(fileName, units[1..], FileOf(fileName, units[0]))
  {
    hide Less;
    if InFileOrder(fileName, units[1..]) && NoneBelow(fileName, units[1..], FileOf(fileName, units[0])) {
      forall i, j | 0 <= i < j < |units|
        ensures !Less(FileOf(fileName, units[j]), FileOf(fileName, units[i]))
      {
        assert units[j] == units[1..][j - 1];
        if i > 0 {
          assert units[i] == units[1..][i - 1];
        }
      }
    }
    if InFileOrder(fileName, units) {
      forall v | v in units[1..]
        ensures !Less(FileOf(fileName, v), FileOf(fileName, units[0]))
      {
        var j :| 0 <= j < |units[1..]| && units[1..][j] == v;
        assert units[j + 1] == v;
      }
    }
  }

  lemma {:induction false} PlacedInOrder(fileName: string -> string, units: seq<Unit>, u: Unit)
    requires InFileOrder(fileName, units)
    ensures InFileOrder(fileName, PlaceUnit(fileName, units, u))
    ensures multiset(PlaceUnit(fileName, units, u)) == multiset(units) + multiset{u}
  {
    hide InFileOrder, NoneBelow, Less;
    PlacedUnits(fileName, units, u);
    var r := PlaceUnit(fileName, units, u);
    InFileOrderFromHead(fileName, r);
    if units == [] {
      OneInOrder(fileName, u);
      assert r == [u];
    } else {
      InFileOrderFromHead(fileName, units);
      if Less(FileOf(fileName, u), FileOf(fileName, units[0])) {
        assert r[1..] == units;
        NoneBelowLess(fileName, units, FileOf(fileName, u));
      } else {
        PlacedInOrder(fileName, units[1..], u);
        NoneBelowPlaced(fileName, units[1..], u, FileOf(fileName, units[0]));
      }
    }
  }

  lemma OneInOrder(fileName: string -> string, u: Unit)
    ensures InFileOrder(fileName, [u])
  {
  }

  lemma NoneBelowPlaced(fileName: string -> string, units: seq<Unit>, u: Unit, f: string)
    requires NoneBelow(fileName, units, f) && !Less(FileOf(fileName, u), f)
    ensures NoneBelow(fileName, PlaceUnit(fileName, units, u), f)
  {
    PlacedUnits(fileName, units, u);
  }

  // Nothing in an ordered list is below what is below its head.
  lemma NoneBelowLess(fileName: string -> string, units: seq<Unit>, f: string)
    requires units != [] && Less(f, FileOf(fileName, units[0]))
    requires NoneBelow(fileName, units[1..], FileOf(fileName, units[0]))
    ensures NoneBelow(fileName, units, f)
  {
    hide Less;
    forall v | v in units
      ensures !Less(FileOf(fileName, v), f)
    {
      assert v == units[0] || v in units[1..];
      if v == units[0] {
        LessIrreflexive(FileOf(fileName, v));
      }
      NotLessBelow(FileOf(fileName, v), FileOf(fileName, units[0]), f);
    }
  }

  // What is above a is not below b, if b is below a or the same.
  lemma NotLessBelow(c: string, a: string, b: string)
    requires (Less(b, a) || a == b) && !Less(c, a)
    ensures !Less(c, b)
  {
    if Less(c, b) && Less(b, a) {
      LessTransitive(c, b, a);
    }
  }

  lemma UnitsAreListed(fileName: string -> string, m: map<string, ResourceState>, names: seq<string>, units: seq<Unit>)
    requires Lists(names, m.Keys) && InFileOrder(fileName, units)
    requires multiset(units) == multiset(UnitsAlong(m, names))
    ensures ListsUnits(fileName, m, units)
  {
    hide InFileOrder, Ascending;
    forall u
      ensures u in units <==> u in UnitsOf(m)
    {
      UnitsAlongNames(m, names, u);
      assert u in units <==> u in multiset(units);
      assert u in UnitsAlong(m, names) <==> u in multiset(UnitsAlong(m, names));
    }
  }

  method SortedUnits(fileName: string -> string, m: map<string, ResourceState>) returns (units: seq<Unit>)
    ensures ListsUnits(fileName, m, units)
    ensures forall u :: u in units ==> u.Service?
    ensures forall i, j :: 0 <= i < j < |units| ==> !Less(fileName(units[j].name), fileName(units[i].name))
  {
    hide Ascending, InFileOrder, PlaceUnit;
    var names := SortedKeys(m.Keys);
    units := [];
    NoUnitsInOrder(fileName);
    for i := 0 to |names|
      invariant InFileOrder(fileName, units)
      invariant multiset(units) == multiset(UnitsAlong(m, names[..i]))
    {
      assert names[i] in names && names[..i + 1][..i] == names[..i];
      if m[names[i]].unit != NoUnit {
        PlacedInOrder(fileName, units, m[names[i]].unit);
        units := PlaceUnit(fileName, units, m[names[i]].unit);
      }
    }
    assert names[..|names|] == names;
    UnitsAreListed(fileName, m, names, units);
    ListedByFileName(fileName, m, units);
  }

  lemma ListedByFileName(fileName: string -> string, m: map<string, ResourceState>, units: seq<Unit>)
    requires ListsUnits(fileName, m, units)
    ensures forall u :: u in units ==> u.Service?
    ensures forall i, j :: 0 <= i < j < |units| ==> !Less(fileName(units[j].name), fileName(units[i].name))
  {
    hide Less, Lists;
    forall u | u in units
      ensures u.Service?
    {
      assert u in UnitSet(units);
    }
    forall i, j | 0 <= i < j < |units|
      ensures !Less(fileName(units[j].name), fileName(units[i].name))
    {
      assert units[i] in units && units[j] in units;
      assert FileOf(fileName, units[i]) == fileName(units[i].name);
      assert FileOf(fileName, units[j]) == fileName(units[j].name);
    }
  }

  lemma NoUnitsInOrder(fileName: string -> string)
    ensures InFileOrder(fileName, [])
  {
  }

  lemma {:induction false} SomeUnitsAlong(fileName: string -> string, m: map<string, ResourceState>, names: seq<string>)
    returns (units: seq<Unit>)
    requires forall n :: n in names ==> n in m
    ensures InFileOrder(fileName, units) && multiset(units) == multiset(UnitsAlong(m, names))
  {
    units := [];
    NoUnitsInOrder(fileName);
    if names != [] {
      hide InFileOrder, PlaceUnit;
      var k := |names| - 1;
      units := SomeUnitsAlong(fileName, m, names[..k]);
      if m[names[k]].unit != NoUnit {
        PlacedInOrder(fileName, units, m[names[k]].unit);
        units := PlaceUnit(fileName, units, m[names[k]].unit);
      }
    }
  }

  lemma SomeUnitList(fileName: string -> string, m: map<string, ResourceState>) returns (units: seq<Unit>)
    ensures ListsUnits(fileName, m, units)
  {
    hide Ascending, InFileOrder;
    var names := SomeListing(m.Keys);
    units := SomeUnitsAlong(fileName, m, names);
    UnitsAreListed(fileName, m, names, units);
  }

  // The first of a record's units, in that order, have been stopped, and nothing else.
  ghost predicate StoppedInOrder(
    fileName: string -> string, m: map<string, ResourceState>, before: map<Unit, string>, after: map<Unit, string>)
  {
    after == before ||
    exists units, k: nat ::
      ListsUnits(fileName, m, units) && k <= |units| && after == before - UnitSet(units[..k])
  }

  lemma FirstDownInOrder(
    fileName: string -> string, m: map<string, ResourceState>, units: seq<Unit>, before: map<Unit, string>,
    after: map<Unit, string>, k: nat)
    requires ListsUnits(fileName, m, units) && k < |units| && FirstDown(before, after, units, k)
    ensures StoppedInOrder(fileName, m, before, after)
  {
    hide ListsUnits;
    var upTo := if after == before - UnitSet(units[..k]) then k else k + 1;
    assert after == before - UnitSet(units[..upTo]);
  }

  lemma StoppedUnitsWereDown(units: seq<Unit>, k: nat, before: map<Unit, string>)
    requires k <= |units| && AllDown(UnitSet(units), before)
    ensures before - UnitSet(units[..k]) == before
  {
    assert forall u :: u in units[..k] ==> u in units;
  }

  // A failing stop leaves the units as they were, however it fails, if and only if none of
  // the record's units was running.
  lemma StopFailureIsHarmlessIff(
    fileName: string -> string, m: map<string, ResourceState>, before: map<Unit, string>)
    ensures (forall after :: StoppedInOrder(fileName, m, before, after) ==> after == before) <==>
      AllDown(UnitsOf(m), before)
  {
    hide InFileOrder, Lists, UnitsOf;
    var all := SomeUnitList(fileName, m);
    assert all[..|all|] == all;
    assert StoppedInOrder(fileName, m, before, before - UnitSet(all));
    if AllDown(UnitsOf(m), before) {
      forall after | StoppedInOrder(fileName, m, before, after)
        ensures after == before
      {
        if exists units, k: nat ::
          ListsUnits(fileName, m, units) && k <= |units| && after == before - UnitSet(units[..k])
        {
          var units, k: nat :| ListsUnits(fileName, m, units) && k <= |units| && after == before - UnitSet(units[..k]);
          StoppedUnitsWereDown(units, k, before);
        }
      }
    } else {
      var u :| u in UnitsOf(m) && u in before;
      assert u !in before - UnitSet(all);
    }
  }

  // A transaction that gave up: nothing was saved, and unless its rollback failed the store
  // is back, and after any rollback so are the loaded definitions and the units. Without a
  // rollback, the first of the record's units may be down.
  ghost predicate Undone(host: Host, c: Context, record: Instance, e: Error, restart: bool)
    reads host`trace, host`records, host`store, host`phase, host`loaded, host`running
  {
    && Underway(host, c)
    && !Through(Some(e)) && !Refused(e)
    && (RollbackSourcesOk(host.trace) || !e.RollbackFailed? ==> Returned(c.start.store, c.own, host.store))
    && (host.phase.Rollback? ==>
          Rollback in ReloadPhases(host.trace) && BestEffort(host.generates, c, host.trace, host.Now(), restart))
    && (host.phase.Forward? ==>
          && !e.RollbackFailed? && OnlyStopped(c, host.Now())
          && StoppedInOrder(host.fileName, record.resources, c.start.running, host.running))
    && (!e.RollbackFailed? && host.phase.Rollback? ==> BackInService(host.generates, c, host.Now()))
  }

  // None of the record's units is running, and none of the plan's under a name it may take.
  ghost predicate Quiet(c: Context, running: map<Unit, string>) {
    && (forall n :: n in c.own ==> Service(n) !in running)
    && (forall p :: p in c.offers && (p.0 !in c.start.store || p.0 in c.own) ==> Service(p.0) !in running)
  }

  lemma StoppedIsQuiet(
    generates: (string, string) -> bool, c: Context, record: Instance, running: map<Unit, string>)
    requires WorksOn(generates, c, record) && c.controlled
    requires AllDown(c.mine, running) && Stopped(c.start.running, running, c.mine)
    ensures Quiet(c, running)
  {
    hide Cut, ClientAccepts;
    forall n | n in c.own
      ensures Service(n) !in running
    {
      assert record.resources[n].unit == Service(n) ==> record.resources[n].unit in c.mine;
    }
  }

  lemma WithoutAll(before: map<string, string>, names: seq<string>, own: set<string>, after: map<string, string>)
    requires Without(before, names, after) && forall n :: n in names <==> n in own
    ensures after == before - own
  {
  }

  // So none of the units whose sources have been installed is running.
  lemma QuietInstalled(
    c: Context, rs: seq<Rendered>, installed: seq<string>, store: map<string, string>, running: map<Unit, string>)
    requires Quiet(c, running) && c.offers == Offers(rs) && Replacing(c, installed, store)
    requires forall n :: n in installed ==> n in Names(rs)
    ensures forall n :: n in installed ==> Service(n) !in running
  {
    hide ClientAccepts;
    forall n | n in installed
      ensures Service(n) !in running
    {
      var i :| 0 <= i < |rs| && Names(rs)[i] == n;
      assert rs[i] in rs;
      assert (rs[i].name, rs[i].content) in c.offers;
    }
  }

  lemma FitsMeansFree(
    generates: (string, string) -> bool, store: map<string, string>, plan: Plan, own: set<string>, k: nat)
    requires PlanFits(generates, store, plan, own) && k < |plan.resources|
    ensures ClientAccepts(plan.resources[k].name)
    ensures plan.resources[k].name !in store - own
    ensures plan.resources[k].name !in Names(plan.resources[..k])
  {
    hide ClientAccepts;
    assert plan.resources[k] in plan.resources;
    var names := Names(plan.resources);
    assert forall j :: 0 <= j < k ==> Names(plan.resources[..k])[j] == names[j];
  }

  // What a fitting plan puts in the store generates every unit it wants started.
  lemma FitsMeansGenerated(
    generates: (string, string) -> bool, store: map<string, string>, plan: Plan, own: set<string>)
    requires PlanFits(generates, store, plan, own)
    ensures AllGenerate(generates, plan.resources, (store - own) + SourceMap(plan.resources))
  {
    forall r | r in plan.resources && r.start
      ensures var m := SourceMap(plan.resources); r.name in m && generates(r.name, m[r.name])
    {
      var i :| 0 <= i < |plan.resources| && plan.resources[i] == r;
      SourceMapAt(plan.resources, i);
    }
  }

  // The same two facts for an install, which owns nothing yet.
  lemma FitsAnEmptyRecord(generates: (string, string) -> bool, store: map<string, string>, plan: Plan, k: nat)
    requires PlanFits(generates, store, plan, {}) && k <= |plan.resources|
    ensures AllGenerate(generates, plan.resources, store + SourceMap(plan.resources))
    ensures k < |plan.resources| ==>
      var next := plan.resources[k].name;
      ClientAccepts(next) && next !in store && next !in Names(plan.resources[..k])
  {
    hide ClientAccepts;
    assert store - {} == store;
    FitsMeansGenerated(generates, store, plan, {});
    if k < |plan.resources| {
      FitsMeansFree(generates, store, plan, {}, k);
    }
  }

  // An install that has put some of its sources in place.
  lemma AddingToStart(
    generates: (string, string) -> bool, c: Context, plan: Plan, installed: seq<string>, store: map<string, string>)
    requires c.own == {} && c.offers == Offers(plan.resources)
    requires c.target == c.start.store + SourceMap(plan.resources)
    requires Placed(c.start.store, plan.resources, |installed|, installed, store)
    ensures Distinct(installed) && Replacing(c, installed, store) && FirstNames(plan.resources, installed)
    ensures Services(installed) <= Concerned(c)
    ensures |installed| == |plan.resources| ==> installed == Names(plan.resources) && store == c.target
    ensures PlanFits(generates, c.start.store, plan, {}) ==> AllGenerate(generates, plan.resources, c.target)
    ensures PlanFits(generates, c.start.store, plan, {}) && |installed| < |plan.resources| ==>
      var next := plan.resources[|installed|].name;
      ClientAccepts(next) && next !in c.start.store && next !in installed
  {
    hide ClientAccepts, SourceMap, PlanFits, AllGenerate, Concerned, Services;
    InstalledUnits(c, plan.resources, |installed|);
    assert plan.resources[..|plan.resources|] == plan.resources;
    if PlanFits(generates, c.start.store, plan, {}) {
      FitsAnEmptyRecord(generates, c.start.store, plan, |installed|);
    }
  }

  // These are the first of the resources' names.
  ghost predicate FirstNames(rs: seq<Rendered>, installed: seq<string>) {
    |installed| <= |rs| && installed == Names(rs[..|installed|])
  }

  lemma FreshNames(c: Context, plan: Plan, store: map<string, string>)
    requires Replacing(c, Names(plan.resources), store) && Distinct(Names(plan.resources))
    ensures Placeable(c.start.store, plan, c.own)
  {
    hide ClientAccepts;
    forall r | r in plan.resources
      ensures ClientAccepts(r.name) && r.name !in c.start.store - c.own
    {
      var i :| 0 <= i < |plan.resources| && plan.resources[i] == r;
      assert Names(plan.resources)[i] in Names(plan.resources);
    }
  }

  lemma PlanUnits(rs: seq<Rendered>, c: Context)
    requires c.offers == Offers(rs)
    ensures Wanted(rs) <= Concerned(c)
    ensures forall n :: n in Names(rs) ==> Service(n) in Concerned(c)
  {
    forall u | u in Wanted(rs)
      ensures u in Concerned(c)
    {
      var r :| r in rs && r.start && u == Service(r.name);
      assert (r.name, r.content) in c.offers;
    }
    forall n | n in Names(rs)
      ensures Service(n) in Concerned(c)
    {
      var i :| 0 <= i < |rs| && Names(rs)[i] == n;
      assert rs[i] in rs;
      assert (rs[i].name, rs[i].content) in c.offers;
    }
  }

  // The context of a transaction that is about to begin for this plan.
  ghost predicate Begins(host: Host, c: Context, plan: Plan)
    reads host
  {
    && host.trace == [] && host.phase.Forward? && host.Now() == c.start
    && c == ContextOf(host.generates, c.start, plan)
  }

  ghost function Before(c: Context): Ledger {
    Ledger(c.start.store, c.start.records)
  }

  // What every transaction guarantees when it ends with e: its journal is good, and leads from
  // the start to where the machine stands; foreign sources and units are intact; sources and
  // records are as Finished says; and a failed rollback whose own source calls all went
  // through has still put every source back.
  ghost predicate Settled(host: Host, c: Context, plan: Plan, e: Option<Error>)
    reads host`trace, host`store, host`records, host`loaded, host`running
  {
    && Good(c, host.trace)
    && Linked(host.generates, c.start, host.trace, host.Now())
    && Between(c, host.store)
    && Untouched(c, host.running)
    && Finished(host.generates, Before(c), plan, e, Ledger(host.store, host.records))
    && (IsRollbackFailure(e) && RollbackSourcesOk(host.trace) ==> Returned(c.start.store, c.own, host.store))
  }

  // Where systemd stands at the end. A plan that went through took one reload, and so did a
  // rollback (that neither took more is in the journal).
  ghost predicate ServiceOutcome(host: Host, c: Context, plan: Plan, e: Option<Error>)
    reads host`trace, host`store, host`records, host`loaded, host`running, host`phase
  {
    && (host.phase.Rollback? ==>
          && Rollback in ReloadPhases(host.trace)
          && BestEffort(host.generates, c, host.trace, host.Now(), plan.operation.Update?))
    && (host.phase.Forward? ==> !IsRollbackFailure(e))
    && (host.phase.Forward? && !Through(e) ==>
          if plan.operation.Install? then host.running == c.start.running
          else StoppedInOrder(
            host.fileName, ResourcesUnder(c.start.records, plan.instanceId), c.start.running, host.running))
    && (Through(e) && !plan.operation.Other? ==> ReloadPhases(host.trace) == {Forward})
    && (!Through(e) && !IsRollbackFailure(e) && host.phase.Rollback? && plan.operation.Install? ==>
          WithoutFirst(c, plan.resources, host.running))
    && (Through(e) ==>
          if plan.operation.Other? then OnlyStopped(c, host.Now()) else InService(host.generates, c, plan, host.Now()))
    && (!Through(e) && !IsRollbackFailure(e) ==>
          if host.phase.Rollback? then BackInService(host.generates, c, host.Now()) else OnlyStopped(c, host.Now()))
  }

  // The resources of the record stored under id.
  function ResourcesUnder(records: map<string, Instance>, id: string): map<string, ResourceState> {
    if id in records then records[id].resources else map[]
  }

  // The same without the journal.
  ghost predicate Served(generates: (string, string) -> bool, c: Context, plan: Plan, e: Option<Error>, v: View) {
    && (Through(e) ==> if plan.operation.Other? then OnlyStopped(c, v) else InService(generates, c, plan, v))
    && (!Through(e) && !IsRollbackFailure(e) ==> BackInService(generates, c, v) || OnlyStopped(c, v))
  }

  // What a failure says about the calls that went wrong. For units under control: a failed
  // rollback takes a fault of its own on top of the one that caused it, unless the plan
  // itself was at fault; and a fitting plan on a machine in step only fails through a fault.
  ghost predicate FaultBound(host: Host, c: Context, plan: Plan, e: Option<Error>, before: nat, clear: bool)
    reads host`faults
  {
    var fits := plan.operation.Remove? || PlanFits(host.generates, c.start.store, plan, c.own);
    && host.faults >= before
    && (e.Some? && e.value.RollbackFailed? && (c.controlled || plan.operation.Install?) ==>
          host.faults >= before + if fits then 2 else 1)
    && (e.Some? && fits && clear && (plan.operation.Install? || (c.controlled && c.start.loaded == c.start.store)) ==>
          host.faults > before)
  }

  // Nothing is in the way of the directories a plan needs.
  ghost predicate Unblocked(roots: map<string, Root>, plan: Plan, t: Tree, anchors: map<string, nat>) {
    plan.operation.Install? || plan.operation.Update? ==> WaysClear(t, anchors, roots, plan.directories)
  }

  // What has become of the directories of a plan: some of them are made, in order; all of
  // them before any source is touched. Nothing that was there is changed.
  ghost predicate Laid(
    roots: map<string, Root>, plan: Plan, done: bool, anchors: map<string, nat>, before: Tree, after: Tree)
  {
    && before.Valid() && Keeps(before, after)
    && (if plan.operation.Install? || plan.operation.Update? then
          && MadeSome(before, anchors, roots, plan.directories, after)
          && (done ==>
                && after == MadeAll(before, anchors, roots, plan.directories)
                && AllStand(after, anchors, roots, plan.directories))
        else after == before)
  }

  // Only the plan's own documentation is written, and a success has written it from the
  // record now stored.
  ghost predicate Documented(
    c: Context, plan: Plan, e: Option<Error>, records: map<string, Instance>, before: map<string, Instance>,
    after: map<string, Instance>)
  {
    && after - {c.id} == before - {c.id}
    && (!Through(e) || e == Some(SaveFailed) ==> after == before)
    && (e.None? && !plan.operation.Other? ==> c.id in records && after == before[c.id := records[c.id]])
  }

  // A plan that has not expired, is as it was digested, and recorded no drift.
  predicate Current(plan: Plan, at: nat) {
    at <= plan.expiresAt && plan.digest == PlanDigestOf(plan) && plan.drift == []
  }

  // The condition under which an execution may begin to change sources.
  ghost predicate LetThrough(plan: Plan, records: map<string, Instance>, store: map<string, string>) {
    plan.operation.Install? ||
    (plan.instanceId in records && DriftFree(records[plan.instanceId], store))
  }

  lemma CapturedIsHonest(
    generates: (string, string) -> bool, record: Instance, rs: seq<Rendered>, store: map<string, string>)
    requires Captured(generates, record.resources, rs, store) && record.removedAt.None?
    ensures Honest(record, store)
  {
  }

  // These mismatches are what a look at the named resources finds that cannot read some of
  // them.
  ghost predicate Reported(record: Instance, store: map<string, string>, missed: set<string>, drift: seq<Drift>) {
    exists names :: Lists(names, record.resources.Keys) && drift == DriftAlong(record, store - missed, names)
  }

  lemma {:induction false} DriftElsewhere(
    record: Instance, a: map<string, string>, b: map<string, string>, names: seq<string>)
    requires forall n :: n in names ==> n in record.resources && LiveDigest(a, n) == LiveDigest(b, n)
    ensures DriftAlong(record, a, names) == DriftAlong(record, b, names)
  {
    if names != [] {
      DriftElsewhere(record, a, b, names[..|names| - 1]);
    }
  }

  // What a look at the first i names has found.
  ghost predicate FoundAlong(
    record: Instance, store: map<string, string>, missed: set<string>, names: seq<string>, i: nat, drift: seq<Drift>)
  {
    && i <= |names| && (forall n :: n in names ==> n in record.resources)
    && (forall n :: n in missed ==> n in names[..i])
    && drift == DriftAlong(record, store - missed, names[..i])
  }

  lemma NoNamesNoDrift(record: Instance, store: map<string, string>)
    ensures forall names :: (forall n :: n in names ==> n in record.resources) ==>
      FoundAlong(record, store, {}, names, 0, [])
  {
  }

  lemma FoundOneMore(
    record: Instance, store: map<string, string>, missed: set<string>, unread: set<string>, names: seq<string>,
    i: nat, drift: seq<Drift>, got: Digest)
    requires FoundAlong(record, store, missed, names, i, drift) && i < |names| && Distinct(names)
    requires unread <= {names[i]}
    requires got == if names[i] in unread then Missing else LiveDigest(store, names[i])
    ensures names[i] in record.resources
    ensures var want := record.resources[names[i]].sha;
      FoundAlong(
        record, store, missed + unread, names, i + 1,
        if got != want then drift + [Drift(names[i], want, got)] else drift)
  {
    hide ClientAccepts, Cut;
    assert names[i] in names && names[..i + 1][..i] == names[..i] && names[..i + 1] == names[..i] + [names[i]];
    assert names[i] !in missed;
    DriftElsewhere(record, store - missed, store - (missed + unread), names[..i]);
  }

  lemma DriftIsReported(
    record: Instance, store: map<string, string>, missed: set<string>, names: seq<string>, drift: seq<Drift>)
    requires Lists(names, record.resources.Keys) && drift == DriftAlong(record, store - missed, names)
    ensures Reported(record, store, missed, drift)
    ensures drift == [] ==> DriftFree(record, store)
    ensures missed == {} ==> (drift == [] <==> DriftFree(record, store))
  {
    hide Ascending, LiveDigest;
    assert missed == {} ==> store - missed == store;
    NoDriftIsDriftFree(record, store - missed, names);
    UnreadIsDrift(record, store, missed);
  }

  // A baseline is never that of a missing source.
  lemma UnreadIsDrift(record: Instance, store: map<string, string>, missed: set<string>)
    ensures DriftFree(record, store - missed) ==> DriftFree(record, store)
  {
    hide ClientAccepts, Cut;
    forall n | n in record.resources && DriftFree(record, store - missed)
      ensures LiveDigest(store, n) == record.resources[n].sha
    {
      assert LiveDigest(store - missed, n) == record.resources[n].sha;
    }
  }

  // What calls for a refusal, in the order of the checks. An error in reading the record may
  // come in between, and where reads fail, what could not be read counts as drift.
  ghost predicate CalledFor(
    plan: Plan, records: map<string, Instance>, store: map<string, string>, e: Error, at: nat, troubled: bool)
  {
    var id := plan.instanceId;
    var asDigested := at <= plan.expiresAt && plan.digest == PlanDigestOf(plan);
    match e
    case PlanExpired => at > plan.expiresAt
    case DigestMismatch => at <= plan.expiresAt && plan.digest != PlanDigestOf(plan)
    case NotFound => asDigested && plan.drift == [] && !plan.operation.Install? && id !in records
    case DriftDetected(drift) =>
      && asDigested && drift != []
      && if plan.drift != [] then drift == plan.drift else
           && !plan.operation.Install? && id in records
           && exists missed :: (troubled || missed == {}) && Reported(records[id], store, missed, drift)
    case StateUnreadable => troubled
    case _ => false
  }

  lemma BeginsNow(host: Host, plan: Plan)
    requires host.trace == [] && host.phase.Forward?
    ensures Begins(host, ContextOf(host.generates, host.Now(), plan), plan)
  {
  }

  // The machine when an execution begins.
  datatype Outset = Outset(view: View, docs: map<string, Instance>, tree: Tree, clock: nat, faults: nat)

  ghost function OutsetOf(host: Host): Outset
    reads host, host.kernel
  {
    Outset(host.Now(), host.docs, host.kernel.tree, host.clock, host.faults)
  }

  lemma OutsetIs(host: Host, o: Outset)
    requires o == OutsetOf(host)
    ensures o.view == host.Now() && o.docs == host.docs && o.tree == host.kernel.tree
    ensures o.clock == host.clock && o.faults == host.faults
  {
  }

  // What an execution of this plan, begun from o, has done when it returns e: the journal and
  // its end, sources and records, units, documentation and directories, the date it saved, and
  // the calls and errors that explain e; and nothing at all unless the plan was current and
  // let through.
  ghost predicate Carried(host: Host, roots: map<string, Root>, o: Outset, plan: Plan, e: Option<Error>)
    reads host`trace, host`store, host`records, host`loaded, host`running, host`phase, host`docs, host`said,
      host`clock, host.kernel
  {
    var c := ContextOf(host.generates, o.view, plan);
    && Settled(host, c, plan, e)
    && Executed(host.generates, Before(c), plan, e, Ledger(host.store, host.records))
    && ServiceOutcome(host, c, plan, e)
    && Documented(c, plan, e, host.records, o.docs, host.docs)
    && Laid(roots, plan, Through(e) || host.trace != [], host.kernel.anchors, o.tree, host.kernel.tree)
    && Dated(c.id, plan, e, host.records, o.clock, host.clock)
    && ((e.Some? && Refused(e.value) && host.trace == []) || Explained(host, o.view.records, plan, c.target, e))
    && ((Current(plan, o.clock) && LetThrough(plan, o.view.records, o.view.store)) ||
          (e.Some? && host.trace == [] && host.kernel.tree == o.tree))
  }

  // What its failure says about faults, unless it is a refusal; and a refusal is called for.
  ghost predicate Bounded(host: Host, roots: map<string, Root>, o: Outset, plan: Plan, e: Option<Error>)
    reads host`clock, host`faults
  {
    && host.faults >= o.faults
    && ((e.Some? ==> !Refused(e.value)) || RunsNow(host, o, plan) ==>
          FaultBound(
            host, ContextOf(host.generates, o.view, plan), plan, e, o.faults,
            Unblocked(roots, plan, o.tree, host.kernel.anchors)))
    && (e.Some? && Refused(e.value) ==>
          CalledFor(plan, o.view.records, o.view.store, e.value, host.clock, host.faults > o.faults))
  }

  // Nothing has gone wrong so far, and nothing calls for a refusal.
  ghost predicate RunsNow(host: Host, o: Outset, plan: Plan)
    reads host`clock, host`faults
  {
    host.faults == o.faults && Current(plan, host.clock) && LetThrough(plan, o.view.records, o.view.store)
  }

  // A plan that is refused.
  lemma RefusedAtOnce(host: Host, roots: map<string, Root>, o: Outset, plan: Plan, e: Error)
    requires Begins(host, ContextOf(host.generates, o.view, plan), plan) && host.kernel.Valid()
    requires host.docs == o.docs && host.kernel.tree == o.tree && host.clock >= o.clock && host.faults >= o.faults
    requires CalledFor(plan, o.view.records, o.view.store, e, host.clock, host.faults > o.faults)
    requires !Refused(e) ==> host.said == [e]
    ensures Carried(host, roots, o, plan, Some(e)) && Bounded(host, roots, o, plan, Some(e))
  {
    hide *;
    ghost var c := ContextOf(host.generates, o.view, plan);
    RefusalIsPlain(plan, o.view.records, o.view.store, e, host.clock, host.faults > o.faults);
    BeginsUnderway(host, c, plan);
    NothingDone(host, c, plan, e);
    KernelIsValid(host.kernel);
    NothingLaid(roots, plan, host.kernel.anchors, host.kernel.tree);
    NothingWritten(c, plan, e, host.records, host.docs);
    if !Refused(e) {
      NothingCalled(host, o.view.records, plan, c.target, e);
    }
    NotCarriedOut(host, roots, o, plan, e);
    RefusalIsBound(host, roots, o, plan, e);
  }

  // A refusal is not for nothing.
  lemma RefusalIsPlain(
    plan: Plan, records: map<string, Instance>, store: map<string, string>, e: Error, at: nat, troubled: bool)
    requires CalledFor(plan, records, store, e, at, troubled)
    ensures Refused(e) || (e.StateUnreadable? && troubled)
    ensures !Through(Some(e)) && !e.RollbackFailed? && !e.UnitNotGenerated?
    ensures !troubled ==> !(Current(plan, at) && LetThrough(plan, records, store))
  {
    var id := plan.instanceId;
    if !troubled && e.DriftDetected? && plan.drift == [] {
      var names :| Lists(names, records[id].resources.Keys) && e.drift == DriftAlong(records[id], store - {}, names);
      assert store - {} == store;
      NoDriftIsDriftFree(records[id], store, names);
    }
  }

  lemma NotCarriedOut(host: Host, roots: map<string, Root>, o: Outset, plan: Plan, e: Error)
    requires Begins(host, ContextOf(host.generates, o.view, plan), plan)
    requires host.docs == o.docs && host.kernel.tree == o.tree && host.clock >= o.clock
    requires !Through(Some(e)) && !e.RollbackFailed?
    requires var c := ContextOf(host.generates, o.view, plan);
      && Settled(host, c, plan, Some(e)) && ServiceOutcome(host, c, plan, Some(e))
      && Laid(roots, plan, false, host.kernel.anchors, o.tree, host.kernel.tree)
      && Documented(c, plan, Some(e), host.records, o.docs, host.docs)
      && (!Refused(e) ==> Explained(host, o.view.records, plan, c.target, Some(e)))
    ensures Carried(host, roots, o, plan, Some(e))
  {
    hide Good, Linked, Finished, ServiceOutcome, Laid, Documented, Explained, Controlled, TargetStore;
    hide Untouched, Between, DriftFree, RollbackSourcesOk, Current, LetThrough;
  }

  lemma RefusalIsBound(host: Host, roots: map<string, Root>, o: Outset, plan: Plan, e: Error)
    requires host.faults >= o.faults && !e.RollbackFailed?
    requires CalledFor(plan, o.view.records, o.view.store, e, host.clock, host.faults > o.faults)
    requires Refused(e) || host.faults > o.faults
    requires host.faults == o.faults ==> !(Current(plan, host.clock) && LetThrough(plan, o.view.records, o.view.store))
    ensures Bounded(host, roots, o, plan, Some(e))
  {
    hide CalledFor, Current, LetThrough, Unblocked, PlanFits, ContextOf;
  }

  // A plan that cannot be read is not run.
  lemma UnreadPlan(host: Host, roots: map<string, Root>, o: Outset, plan: Plan, e: Error)
    requires host.trace == [] && host.phase.Forward? && host.Now() == o.view && host.docs == o.docs
    requires host.kernel.Valid() && host.kernel.tree == o.tree
    requires e.StateUnreadable? && host.faults > o.faults && host.said == [e] && host.clock >= o.clock
    ensures Carried(host, roots, o, plan, Some(e)) && Bounded(host, roots, o, plan, Some(e))
  {
    hide TargetStore, Controlled, Offers, UnitsOf;
    var c := ContextOf(host.generates, o.view, plan);
    NothingCalled(host, o.view.records, plan, c.target, e);
    EmptyJournal(c);
    UntouchedIsSettled(host, c, plan, e);
    NothingLaid(roots, plan, host.kernel.anchors, host.kernel.tree);
  }

  lemma EmptyJournal(c: Context)
    ensures Good(c, []) && RollbackSourcesOk([])
  {
  }

  lemma BeginsUnderway(host: Host, c: Context, plan: Plan)
    requires Begins(host, c, plan)
    ensures Underway(host, c) && StopsOk(host.trace) && ReloadPhases(host.trace) == {}
    ensures host.trace == [] && LogOf(host.trace) == NoCalls
  {
  }

  lemma UndoneIsSettled(host: Host, c: Context, plan: Plan, record: Instance, e: Error, restart: bool)
    requires Undone(host, c, record, e, restart) && c.own == OwnNames(c.start.records, plan)
    ensures Settled(host, c, plan, Some(e))
  {
  }

  // A transaction that has not begun to change anything.
  lemma UntouchedIsSettled(host: Host, c: Context, plan: Plan, e: Error)
    requires Good(c, host.trace) && Linked(host.generates, c.start, host.trace, host.Now()) && host.Now() == c.start
    requires !Through(Some(e)) && !e.RollbackFailed?
    ensures Settled(host, c, plan, Some(e)) && OnlyStopped(c, host.Now())
  {
    StartFits(c);
  }

  lemma OwnIsRecords(generates: (string, string) -> bool, c: Context, record: Instance)
    requires WorksOn(generates, c, record)
    ensures c.own == record.resources.Keys && forall names: seq<string> | (forall n :: n in names <==> n in c.own) ::
      Without(c.start.store, names, c.start.store - c.own)
  {
  }

  // Saving the record of a deployed plan commits it; failing to save leaves the new sources.
  lemma DeployedIsSettled(
    host: Host, c: Context, plan: Plan, previous: Option<Instance>, record: Instance, e: Option<Error>)
    requires Good(c, host.trace) && Linked(host.generates, c.start, host.trace, host.Now())
    requires Between(c, host.store) && Untouched(c, host.running)
    requires host.store == c.target == TargetStore(c.start.store, plan, c.own)
    requires c.own == OwnNames(c.start.records, plan)
    requires plan.operation == if previous.Some? then Operation.Update else Operation.Install
    requires previous.Some? ==> plan.instanceId in c.start.records && previous.value == c.start.records[plan.instanceId]
    requires Distinct(Names(plan.resources)) && Replacing(c, Names(plan.resources), host.store)
    requires Captured(host.generates, record.resources, plan.resources, host.store)
    requires record == Instance(
      plan.instanceId, plan.appId, plan.catalogVersion, plan.parameters, record.resources, plan.directories,
      if previous.Some? then previous.value.installedAt else record.updatedAt, record.updatedAt, None,
      (if previous.Some? then previous.value.history else []) + [Entry(record.updatedAt, plan.operation)])
    requires Through(e)
    requires host.records == if e == Some(SaveFailed) then c.start.records else c.start.records[record.id := record]
    ensures Settled(host, c, plan, e)
  {
    hide Good, Linked, Between, Untouched, RollbackSourcesOk, ReloadPhases, Captured, SourceMap, Placeable;
    FreshNames(c, plan, host.store);
    if e != Some(SaveFailed) {
      assert Deployed(host.generates, Before(c), plan, Ledger(host.store, host.records), c.own, previous);
    }
  }

  lemma RemovedIsSettled(host: Host, c: Context, plan: Plan, record: Instance, now: nat, e: Option<Error>)
    requires Good(c, host.trace) && Linked(host.generates, c.start, host.trace, host.Now())
    requires Between(c, host.store) && Untouched(c, host.running)
    requires host.store == c.start.store - c.own
    requires plan.operation.Remove? && c.own == OwnNames(c.start.records, plan)
    requires plan.instanceId in c.start.records && record == c.start.records[plan.instanceId]
    requires Through(e)
    requires host.records == if e == Some(SaveFailed) then c.start.records else
      c.start.records[record.id := record.(
        removedAt := Some(now), updatedAt := now, history := record.history + [Entry(now, Operation.Remove)])]
    ensures Settled(host, c, plan, e)
  {
    hide Good, Linked, Between, Untouched, RollbackSourcesOk, ReloadPhases;
  }

  // Under control, every own unit can run what a rollback puts back.
  lemma ControlledRuns(
    generates: (string, string) -> bool, c: Context, record: Instance, loaded: map<string, string>)
    requires WorksOn(generates, c, record) && c.controlled
    requires Returned(c.start.store, c.own, loaded)
    ensures forall u :: u in c.mine ==> Runnable(generates, loaded, u)
  {
    hide Cut, ClientAccepts;
    forall u | u in c.mine
      ensures Runnable(generates, loaded, u)
    {
      var n :| n in record.resources && record.resources[n].unit == u;
      assert n in c.own && n in c.start.store;
    }
  }

  // With the started units down and only own ones touched since, the others are as before.
  lemma StartedAreDown(
    c: Context, installed: seq<string>, started: seq<Unit>, before: map<Unit, string>, stopped: map<Unit, string>,
    after: map<Unit, string>)
    requires SameBut(c.start.running, before, c.mine + UnitSet(started))
    requires UnitSet(started) <= Services(installed)
    requires forall n :: n in installed ==> n !in c.start.store || n in c.own
    requires Stopped(before, stopped, UnitSet(started)) && forall u :: u in started ==> u !in stopped
    requires SameBut(stopped, after, c.mine)
    ensures OthersAsBefore(c, after)
  {
    forall u | u in c.start.running && u !in c.mine
      ensures u in after || (u.Service? && u.name !in c.start.store.Keys - c.own)
    {
      if u in UnitSet(started) {
        assert u in Services(installed);
      }
    }
  }

  // Taking every installed source back by force stops its unit.
  lemma AllTakenBack(
    c: Context, installed: seq<string>, started: seq<Unit>, before: map<Unit, string>, after: map<Unit, string>)
    requires c.own == {} && c.mine == {} && forall n :: n in installed ==> n !in c.start.store
    requires SameBut(c.start.running, before, UnitSet(started)) && UnitSet(started) <= Services(installed)
    requires Stopped(before, after, Services(installed)) && forall n :: n in installed ==> Service(n) !in after
    ensures after == c.start.running - Services(installed)
    ensures OthersAsBefore(c, after)
  {
    forall u | u in Services(installed)
      ensures u !in after && u.Service? && u.name !in c.start.store
    {
    }
    forall u | u !in Services(installed)
      ensures SameAt(c.start.running, after, u)
    {
      assert u !in UnitSet(started);
    }
    assert after.Keys == (c.start.running - Services(installed)).Keys;
  }

  // Once every installed source has been taken back, sources and units are as before.
  lemma InstallTakenBack(
    c: Context, installed: seq<string>, started: seq<Unit>, store: map<string, string>, rest: map<string, string>,
    before: map<Unit, string>, after: map<Unit, string>, errs: seq<Error>)
    requires c.own == {} && c.mine == {} && Between(c, store) && Replacing(c, installed, store)
    requires errs == [] ==> Taken({}, installed, true, store, rest, after)
    requires SameBut(c.start.running, before, UnitSet(started)) && UnitSet(started) <= Services(installed)
    requires Stopped(before, after, Services(installed))
    ensures errs == [] ==> rest == c.start.store && Returned(c.start.store, c.own, rest)
    ensures errs == [] ==> after == c.start.running - Services(installed) && OthersAsBefore(c, after)
    ensures c.mine == {}
  {
    hide Between, SameBut, Stopped, Services, UnitSet, Returned, OthersAsBefore, ClientAccepts, Cut;
    if errs == [] {
      NothingRestored({}, map[], rest);
      PutAllBack(c, installed, true, [], map[], store, rest, after, rest);
      AllTakenBack(c, installed, started, before, after);
    }
  }

  lemma OutcomeIsBare(cause: Error, errs: seq<Error>)
    requires !cause.RollbackFailed?
    ensures Outcome(cause, errs) == cause <==> errs == []
    ensures During(Outcome(cause, errs)) == errs && CauseOf(Outcome(cause, errs)) == cause
  {
  }

  // What has been installed may be taken back.
  lemma SnapshotKeys(snapshot: map<string, string>, store: map<string, string>, own: set<string>)
    requires IsSnapshot(snapshot, store, own)
    ensures snapshot.Keys == own
  {
  }

  lemma ListingIsDistinct(names: seq<string>, keys: set<string>)
    requires Lists(names, keys)
    ensures Distinct(names) && forall n :: n in names <==> n in keys
  {
    AscendingIsDistinct(names);
  }

  lemma StartedConcern(c: Context, installed: seq<string>, started: seq<Unit>)
    requires UnitSet(started) <= Services(installed) <= Concerned(c)
    ensures forall u :: u in started ==> u in Concerned(c) && u in UnitSet(started)
  {
    hide Services, Concerned;
    assert forall u :: u in started ==> u in UnitSet(started);
  }

  lemma MayTakeBack(c: Context, installed: seq<string>, store: map<string, string>)
    requires Replacing(c, installed, store) && Services(installed) <= Concerned(c)
    ensures forall n :: n in installed ==>
      n in store && ClientAccepts(n) && (n !in c.start.store || n in c.own) && Service(n) in Concerned(c)
  {
    hide Concerned, ClientAccepts;
    assert forall n :: n in installed ==> Service(n) in Services(installed);
  }

  lemma RemovedAreBack(
    c: Context, tr: seq<Step>, removed: seq<string>, snapshot: map<string, string>, before: map<string, string>,
    after: map<string, string>)
    requires IsSnapshot(snapshot, c.start.store, c.own) && Without(c.start.store, removed, before)
    requires forall n :: n in removed ==> n in c.own
    requires Restored(Failures(tr), snapshot, removed, before, after)
    ensures SourcesBack(c, tr, after)
  {
    hide Failures, Cut;
  }

  lemma NoneLeft(
    c: Context, installed: seq<string>, force: bool, names: seq<string>, before: map<string, string>,
    mid: map<string, string>, running: map<Unit, string>)
    requires Replacing(c, installed, before) && Lists(names, c.own)
    requires Taken({}, installed, force, before, mid, running)
    ensures forall n :: n in names ==> n !in mid
  {
  }

  lemma SwappedAreBack(
    c: Context, force: bool, withdrawn: seq<Step>, tr: seq<Step>, installed: seq<string>, names: seq<string>,
    snapshot: map<string, string>, before: map<string, string>, mid: map<string, string>,
    running: map<Unit, string>, after: map<string, string>)
    requires IsSnapshot(snapshot, c.start.store, c.own) && Lists(names, c.own)
    requires Between(c, before) && Replacing(c, installed, before)
    requires Taken(Failures(withdrawn), installed, force, before, mid, running)
    requires Failures(withdrawn) <= Failures(tr)
    requires Restored(Failures(tr), snapshot, names, mid, after)
    ensures SourcesBack(c, tr, after)
  {
    hide Failures, Cut, ClientAccepts;
    forall n | n in after
      ensures Original(c, n, after[n]) || Unremoved(tr, n)
    {
      if n in mid && n in installed {
        assert RemoveSource(n, force) in Failures(withdrawn);
      }
    }
    forall n | n in c.start.store && n !in c.own
      ensures n in after && after[n] == c.start.store[n]
    {
      assert n in before && n !in installed;
    }
  }

  lemma StoppedAreBack(
    c: Context, tr: seq<Step>, started: seq<Unit>, installed: seq<string>, before: map<Unit, string>,
    stopped: map<Unit, string>, after: map<Unit, string>)
    requires SameBut(c.start.running, before, c.mine + UnitSet(started))
    requires UnitSet(started) <= Services(installed)
    requires forall n :: n in installed ==> n !in c.start.store || n in c.own
    requires Stopped(before, stopped, UnitSet(started))
    requires forall u :: u in started ==> u !in stopped || StopUnit(u) in Failures(tr)
    requires SameBut(stopped, after, c.mine)
    ensures OthersBack(c, tr, after)
  {
    hide Failures;
    forall u | u in c.start.running && u !in c.mine
      ensures u in after || (u.Service? && u.name !in c.start.store.Keys - c.own)
    {
      if u in UnitSet(started) {
        assert u in Services(installed);
      }
    }
    forall u | u in after && u !in c.mine
      ensures (u in c.start.running && after[u] == c.start.running[u]) || Unstopped(tr, u)
    {
      assert u in UnitSet(started) ==> u in started;
    }
  }

  lemma TakenAreBack(
    c: Context, tr: seq<Step>, installed: seq<string>, started: seq<Unit>, before: map<Unit, string>,
    after: map<Unit, string>)
    requires c.own == {} && c.mine == {} && forall n :: n in installed ==> n !in c.start.store
    requires SameBut(c.start.running, before, UnitSet(started)) && UnitSet(started) <= Services(installed)
    requires Stopped(before, after, Services(installed))
    requires forall n :: n in installed && RemoveSource(n, true) !in Failures(tr) ==> Service(n) !in after
    ensures OthersBack(c, tr, after)
  {
    hide Failures;
    forall u | u in Services(installed)
      ensures u.Service? && u.name in installed
    {
    }
  }

  lemma OthersStayBack(c: Context, tr: seq<Step>, more: seq<Step>, running: map<Unit, string>)
    requires OthersBack(c, tr, running) && Failures(tr) <= Failures(more)
    ensures OthersBack(c, more, running)
  {
    hide Failures;
  }

  lemma BestEffortMade(host: Host, c: Context, restart: bool)
    requires SourcesBack(c, host.trace, host.store) && OthersBack(c, host.trace, host.running)
    requires host.loaded == host.store || Reload in Failures(host.trace)
    requires OwnRetried(host.generates, c, host.trace, host.loaded, host.running, restart)
    ensures BestEffort(host.generates, c, host.trace, host.Now(), restart)
  {
    hide SourcesBack, OthersBack, OwnRetried, Failures;
  }

  lemma NothingOfMine(host: Host, c: Context, restart: bool)
    requires c.mine == {}
    ensures OwnRetried(host.generates, c, host.trace, host.loaded, host.running, restart)
  {
  }

  // What forced removals have done to sources and units.
  lemma AllTaken(
    c: Context, tr: seq<Step>, installed: seq<string>, started: seq<Unit>, store: map<string, string>,
    rest: map<string, string>, before: map<Unit, string>, after: map<Unit, string>)
    requires c.own == {} && c.mine == {} && Between(c, store) && Replacing(c, installed, store)
    requires Taken(Failures(tr), installed, true, store, rest, after)
    requires SameBut(c.start.running, before, UnitSet(started)) && UnitSet(started) <= Services(installed)
    requires Stopped(before, after, Services(installed))
    ensures SourcesBack(c, tr, rest) && OthersBack(c, tr, after)
  {
    hide Failures, SourcesBack, OthersBack, Cut, ClientAccepts, SameBut, Stopped, Services, UnitSet, Between;
    assert IsSnapshot(map[], c.start.store, c.own);
    NothingRestored(Failures(tr), map[], rest);
    SwappedAreBack(c, true, tr, tr, installed, [], map[], store, rest, after, rest);
    TakenAreBack(c, tr, installed, started, before, after);
  }

  lemma RemovedAreGone(start: map<string, string>, removed: seq<string>, store: map<string, string>)
    requires Without(start, removed, store)
    ensures forall n :: n in removed ==> n !in store
  {
  }

  lemma OwnIsReachable(generates: (string, string) -> bool, c: Context, record: Instance)
    requires WorksOn(generates, c, record)
    ensures Reachable(c.start.store, c.own)
  {
  }

  lemma RollbackEnds(host: Host, c: Context, cause: Error, errs: seq<Error>, restart: bool)
    requires BestEffort(host.generates, c, host.trace, host.Now(), restart)
    requires Rollback in ReloadPhases(host.trace)
    requires RollbackSourcesOk(host.trace) ==> Returned(c.start.store, c.own, host.store)
    requires errs == [] ==> RollbackSourcesOk(host.trace) && host.loaded == host.store
    requires errs == [] ==> OthersAsBefore(c, host.running) && forall u :: u in c.mine ==> host.UpToDate(u)
    ensures RolledBack(host, c, cause, Outcome(cause, errs), restart)
  {
    hide RollbackSourcesOk, Returned, OthersAsBefore, Fresh, ReloadPhases, BestEffort;
  }

  // What a rollback returns: the bare cause, or the cause marked with what went wrong.
  function Outcome(cause: Error, errs: seq<Error>): Error {
    if errs == [] then cause else RollbackFailed(cause, errs)
  }

  lemma QuietAgain(
    c: Context, installed: seq<string>, started: seq<Unit>, before: map<Unit, string>, stopped: map<Unit, string>)
    requires Stopped(before, stopped, UnitSet(started))
    ensures (forall n :: n in installed && Service(n) in before ==>
      Service(n) in started) && (forall u :: u in started ==> u !in stopped)
      ==> forall n :: n in installed ==> Service(n) !in stopped
  {
  }

  lemma RolledBackIsUndone(host: Host, c: Context, record: Instance, cause: Error, e: Error, restart: bool)
    requires Underway(host, c) && host.phase.Rollback? && RolledBack(host, c, cause, e, restart)
    requires !Through(Some(cause)) && !cause.RollbackFailed? && !Refused(cause)
    ensures Undone(host, c, record, e, restart)
  {
  }

  // How a transaction stands that gave up after these calls and was rolled back.
  lemma GivenUpBack(
    host: Host, c: Context, record: Instance, cause: Error, e: Error, restart: bool, before: Log, failed: Log,
    calls: seq<Call>, back: seq<Call>, script: seq<Call>)
    requires Underway(host, c) && host.phase.Rollback? && RolledBack(host, c, cause, e, restart)
    requires cause.SourceRefused? || Operational(cause)
    requires Went(before, failed, calls, Some(cause)) && WentBack(failed, LogOf(host.trace), back) && calls <= script
    ensures Undone(host, c, record, e, restart)
    ensures WentSome(before, LogOf(host.trace), script, Cause(Some(e)))
    ensures CauseOf(e) == cause && Told(Some(e)) == Voiced(Some(cause)) + During(e)
    ensures e != cause <==> e.RollbackFailed?
  {
    hide LogOf, Went, WentBack, WentSome, Undone, Told, Underway, During, BestEffort;
    CauseTold(host, c, cause, e, restart);
    RolledBackIsUndone(host, c, record, cause, e, restart);
    ForthAndBack(before, failed, LogOf(host.trace), calls, back, script, Some(cause));
  }

  lemma OwnListed(generates: (string, string) -> bool, c: Context, record: Instance, names: seq<string>)
    requires WorksOn(generates, c, record) && Lists(names, record.resources.Keys)
    ensures Distinct(names) && (forall n :: n in names <==> n in c.own)
    ensures Reachable(c.start.store, NameSet(names))
  {
    hide ClientAccepts, Controlled;
    AscendingIsDistinct(names);
  }

  lemma DistinctFirst(first: seq<string>, names: seq<string>)
    requires first <= names && Distinct(names)
    ensures Distinct(first) && forall n :: n in first ==> n in names
  {
  }

  // What a rollback's outcome passes on.
  lemma CauseTold(host: Host, c: Context, cause: Error, e: Error, restart: bool)
    requires RolledBack(host, c, cause, e, restart) && !cause.RollbackFailed?
    ensures Cause(Some(e)) == Some(cause) && CauseOf(e) == cause && Told(Some(e)) == Voiced(Some(cause)) + During(e)
  {
    hide BestEffort, BackInService, Returned, RollbackSourcesOk, ReloadPhases;
  }

  lemma ToldPlainly(e: Option<Error>)
    requires e.Some? ==> !e.value.RollbackFailed?
    ensures Told(e) == Voiced(e) && Cause(e) == e && (e.Some? ==> CauseOf(e.value) == e.value)
    ensures (e.Some? ==> !e.value.UnitNotGenerated?) ==> Told(e) == if e.Some? then [e.value] else []
  {
  }

  lemma StopFailureIsUndone(host: Host, c: Context, record: Instance, units: seq<Unit>, e: Error,
    restart: bool)
    requires Underway(host, c) && host.phase.Forward? && OnlyStopped(c, host.Now())
    requires ListsUnits(host.fileName, record.resources, units)
    requires exists k: nat :: k < |units| && FirstDown(c.start.running, host.running, units, k)
    requires e.UnitFailed?
    ensures Undone(host, c, record, e, restart)
  {
    hide ListsUnits;
    var k: nat :| k < |units| && FirstDown(c.start.running, host.running, units, k);
    FirstDownInOrder(host.fileName, record.resources, units, c.start.running, host.running, k);
    StartFits(c);
  }

  lemma StoppedSome(
    before: Log, after: Log, running: map<Unit, string>, now: map<Unit, string>, units: seq<Unit>, e: Option<Error>)
    requires exists k: nat ::
      k < |units| && FirstDown(running, now, units, k) && Went(before, after, Stops(units[..k + 1]), e)
    ensures WentSome(before, after, Stops(units), e)
    ensures exists k: nat :: k < |units| && FirstDown(running, now, units, k)
  {
    hide Stops;
    var k: nat :| k < |units| && FirstDown(running, now, units, k) && Went(before, after, Stops(units[..k + 1]), e);
    StopsPrefix(units, k + 1);
    WentIsForth(before, after, Stops(units[..k + 1]), e);
  }

  lemma OwnUnits(generates: (string, string) -> bool, c: Context, record: Instance)
    requires WorksOn(generates, c, record)
    ensures forall u :: u in c.mine ==> u in Concerned(c)
    ensures c.controlled && c.start.loaded == c.start.store ==>
      forall u :: u in c.mine ==> Runnable(generates, c.start.loaded, u)
  {
    if c.controlled && c.start.loaded == c.start.store {
      ControlledRuns(generates, c, record, c.start.loaded);
    }
  }

  lemma OwnIsQuiet(c: Context, running: map<Unit, string>)
    requires Quiet(c, running)
    ensures forall n :: n in c.own ==> Service(n) !in running
  {
  }

  lemma InstalledUnits(c: Context, rs: seq<Rendered>, k: nat)
    requires c.offers == Offers(rs) && k <= |rs|
    ensures Services(Names(rs[..k])) <= Concerned(c)
    ensures forall n :: n in Names(rs[..k]) ==> n in Names(rs)
    ensures k == |rs| ==> Wanted(rs) <= Services(Names(rs[..k]))
  {
    PlanUnits(rs, c);
    hide Concerned;
    forall n | n in Names(rs[..k])
      ensures n in Names(rs)
    {
      var i :| 0 <= i < k && Names(rs[..k])[i] == n;
      assert Names(rs)[i] == n;
    }
    if k == |rs| {
      assert rs[..k] == rs;
      forall u | u in Wanted(rs)
        ensures u in Services(Names(rs))
      {
        var i :| 0 <= i < |rs| && u == Service(rs[i].name);
        assert Names(rs)[i] in Names(rs);
      }
    }
  }

  lemma OfferedAll(c: Context, rs: seq<Rendered>)
    requires c.offers == Offers(rs)
    ensures forall r :: r in rs ==> (r.name, r.content) in c.offers
  {
  }

  lemma InstalledInPlace(c: Context, installed: seq<string>, before: map<string, string>, store: map<string, string>)
    requires before == c.start.store - c.own
    requires forall n :: n in installed ==> n !in before && ClientAccepts(n)
    requires forall n :: n in store <==> n in before || n in installed
    ensures Replacing(c, installed, store)
  {
    hide ClientAccepts;
  }

  lemma NoneStarted(c: Context, installed: seq<string>, running: map<Unit, string>)
    requires Stopped(c.start.running, running, c.mine)
    ensures UnitSet([]) <= Services(installed) && SameBut(c.start.running, running, c.mine + UnitSet([]))
  {
  }

  lemma ReplacedIsReachable(c: Context, installed: seq<string>, store: map<string, string>)
    requires Replacing(c, installed, store)
    ensures Reachable(store, NameSet(installed))
  {
    hide ClientAccepts;
  }

  // Where the units stand while the new ones are being brought up.
  lemma ServedBetween(
    host: Host, c: Context, plan: Plan, installed: seq<string>, started: seq<Unit>, before: map<Unit, string>)
    requires installed == Names(plan.resources) && Wanted(plan.resources) <= Services(installed)
    requires Stopped(c.start.running, before, c.mine)
    requires SameBut(before, host.running, UnitSet(started)) && forall u :: u in started ==> u in Wanted(plan.resources)
    ensures UnitSet(started) <= Services(installed)
    ensures SameBut(c.start.running, host.running, c.mine + UnitSet(started))
    ensures (forall n :: n in installed ==> Service(n) !in before) ==>
      forall n :: n in installed && Service(n) in host.running ==> Service(n) in started
  {
    hide Wanted, Services;
  }

  // An update that brought everything up is in service.
  lemma UpdateServed(host: Host, c: Context, plan: Plan, started: seq<Unit>, before: map<Unit, string>)
    requires plan.operation.Update? && host.loaded == host.store
    requires Stopped(c.start.running, before, c.mine) && AllDown(c.mine, before)
    requires SameBut(before, host.running, UnitSet(started)) && forall u :: u in started ==> u in Wanted(plan.resources)
    requires forall u :: u in Wanted(plan.resources) ==> host.UpToDate(u)
    ensures InService(host.generates, c, plan, host.Now())
  {
    hide Wanted, Runnable;
  }

  lemma BeginsWorking(host: Host, c: Context, plan: Plan, record: Instance)
    requires Begins(host, c, plan) && (plan.operation.Update? || plan.operation.Remove?)
    requires plan.instanceId in host.records && record == host.records[plan.instanceId]
    requires Reachable(host.store, c.own)
    ensures WorksOn(host.generates, c, record)
    ensures plan.operation.Update? ==>
      c.offers == Offers(plan.resources) && c.target == (c.start.store - c.own) + SourceMap(plan.resources)
    ensures plan.operation.Remove? ==> c.target == c.start.store - c.own
  {
    hide Controlled, SourceMap, ClientAccepts;
  }

  // Saving a record changes nothing about the units.
  lemma StillInService(generates: (string, string) -> bool, c: Context, plan: Plan, v: View, w: View)
    requires InService(generates, c, plan, v)
    requires w.store == v.store && w.loaded == v.loaded && w.running == v.running
    ensures InService(generates, c, plan, w)
  {
  }

  // A removal that stopped every own unit is in service.
  lemma RemovalServed(host: Host, c: Context, plan: Plan)
    requires plan.operation.Remove? && host.loaded == host.store
    requires Stopped(c.start.running, host.running, c.mine) && AllDown(c.mine, host.running)
    ensures InService(host.generates, c, plan, host.Now())
  {
  }

  // An install that brought everything up is in service.
  lemma InstallServed(host: Host, c: Context, plan: Plan, started: seq<Unit>)
    requires plan.operation.Install? && host.loaded == host.store && c.mine == {}
    requires SameBut(c.start.running, host.running, UnitSet(started))
    requires forall u :: u in started ==> u in Wanted(plan.resources)
    requires forall u :: u in host.running && u in started ==>
      SameAt(c.start.running, host.running, u) || host.UpToDate(u)
    requires KeptUp(c.start.running, host.running)
    requires forall u :: u in Wanted(plan.resources) ==>
      u in host.running && (u !in c.start.running ==> host.UpToDate(u))
    ensures InService(host.generates, c, plan, host.Now())
  {
    hide Wanted, Runnable;
  }

  lemma StandsAt(host: Host, v: View)
    requires host.Now() == v
    ensures host.store == v.store && host.loaded == v.loaded && host.running == v.running
  {
  }

  lemma WentBackReloading(log: Log, e: Option<Error>)
    ensures WentBack(log, Noted(log, Rollback, Reload, e.None?), [Reload])
  {
  }

  lemma NoneTouched(installed: seq<string>, running: map<Unit, string>)
    ensures UnitSet([]) <= Services(installed) && SameBut(running, running, UnitSet([]))
  {
  }

  lemma RefusalIsOperational(generates: (string, string) -> bool, plan: Plan, store: map<string, string>, e: Error)
    requires e.SourceRefused?
    ensures Operational(e) && NotGenerated(generates, plan, store, e) && Voiced(Some(e)) == [e]
  {
  }

  lemma WantedOnly(host: Host, c: Context, rs: seq<Rendered>, installed: seq<string>, started: seq<Unit>)
    requires forall u :: u in started ==> u in Wanted(rs)
    requires Wanted(rs) <= Services(installed)
    requires BroughtUp(host.generates, host.loaded, c.start.running, host.running, started)
    ensures UnitSet(started) <= Services(installed) && SameBut(c.start.running, host.running, UnitSet(started))
    ensures forall u :: u in host.running && u in started ==>
      SameAt(c.start.running, host.running, u) || host.UpToDate(u)
  {
    hide Wanted, Services, Runnable;
  }

  lemma GoneThrough(host: Host, c: Context, plan: Plan, e: Option<Error>)
    requires Through(e) && host.phase.Forward? && InService(host.generates, c, plan, host.Now())
    requires ReloadPhases(host.trace) == {Forward} && !plan.operation.Other?
    ensures ServiceOutcome(host, c, plan, e)
  {
  }

  // What Undone says about the units is what a plan that gave up owes, but for an install.
  lemma GivenUp(host: Host, c: Context, plan: Plan, record: Instance, e: Error)
    requires Undone(host, c, record, e, plan.operation.Update?)
    requires !plan.operation.Install? && c.own == OwnNames(c.start.records, plan)
    requires plan.instanceId in c.start.records && record == c.start.records[plan.instanceId]
    ensures Settled(host, c, plan, Some(e)) && ServiceOutcome(host, c, plan, Some(e))
    ensures !Through(Some(e)) && !Refused(e)
  {
    UndoneIsSettled(host, c, plan, record, e, plan.operation.Update?);
    hide Settled, Underway, RollbackSourcesOk, ReloadPhases, Returned, BackInService, OnlyStopped;
    hide BestEffort, StoppedInOrder;
  }

  lemma NothingDone(host: Host, c: Context, plan: Plan, e: Error)
    requires Begins(host, c, plan) && !Through(Some(e)) && !e.RollbackFailed?
    ensures Settled(host, c, plan, Some(e)) && ServiceOutcome(host, c, plan, Some(e))
  {
    UntouchedIsSettled(host, c, plan, e);
  }

  lemma InstallUndone(host: Host, c: Context, plan: Plan, k: nat, cause: Error, e: Error)
    requires Underway(host, c) && host.phase.Rollback? && RolledBack(host, c, cause, e, false)
    requires plan.operation.Install? && Operational(cause)
    requires c.own == OwnNames(c.start.records, plan)
    requires k <= |plan.resources|
    requires e == cause ==> host.running == c.start.running - Services(Names(plan.resources[..k]))
    ensures Settled(host, c, plan, Some(e)) && ServiceOutcome(host, c, plan, Some(e))
    ensures !Through(Some(e)) && !Refused(e)
  {
    hide Good, Linked, Untouched, RollbackSourcesOk, ReloadPhases, Returned, BackInService, BestEffort;
    hide Services, Names;
    InstallGivenUp(host, c, plan, k, cause, e);
  }

  lemma InstallGivenUp(host: Host, c: Context, plan: Plan, k: nat, cause: Error, e: Error)
    requires host.phase.Rollback? && RolledBack(host, c, cause, e, false)
    requires plan.operation.Install? && Operational(cause) && k <= |plan.resources|
    requires e == cause ==> host.running == c.start.running - Services(Names(plan.resources[..k]))
    ensures ServiceOutcome(host, c, plan, Some(e))
  {
    hide RollbackSourcesOk, ReloadPhases, Returned, BackInService, BestEffort, OnlyStopped, StoppedInOrder;
    hide Services, Names, InService;
  }

  // An operation the engine does not know is let through and does nothing.
  lemma NothingToDo(host: Host, c: Context, plan: Plan)
    requires Begins(host, c, plan) && plan.operation.Other?
    requires host.said == []
    ensures Settled(host, c, plan, None) && ServiceOutcome(host, c, plan, None)
    ensures Explained(host, c.start.records, plan, c.target, None)
  {
    StartFits(c);
  }

  lemma OnlyOwnTouched(c: Context, tr: seq<Step>, before: map<Unit, string>, after: map<Unit, string>)
    requires Stopped(c.start.running, before, c.mine) && SameBut(before, after, c.mine)
    ensures OthersAsBefore(c, after) && OthersBack(c, tr, after)
  {
    hide Failures;
  }

  lemma SuccessIsBound(host: Host, roots: map<string, Root>, o: Outset, plan: Plan)
    requires host.faults >= o.faults
    ensures Bounded(host, roots, o, plan, None)
  {
  }

  lemma NothingWritten(c: Context, plan: Plan, e: Error, records: map<string, Instance>, docs: map<string, Instance>)
    requires !Through(Some(e))
    ensures Documented(c, plan, Some(e), records, docs, docs)
  {
  }

  lemma KernelIsValid(k: Kernel)
    requires k.Valid()
    ensures k.tree.Valid()
  {
  }

  lemma NothingLaid(roots: map<string, Root>, plan: Plan, anchors: map<string, nat>, t: Tree)
    requires t.Valid()
    ensures Laid(roots, plan, false, anchors, t, t)
  {
    KeepsItself(t);
    NothingMade(t, anchors, roots, plan.directories);
  }

  lemma UnitsUnderAre(records: map<string, Instance>, id: string, units: seq<Unit>, fileName: string -> string)
    requires id in records && ListsUnits(fileName, records[id].resources, units)
    ensures UnitSet(units) == UnitsUnder(records, id)
  {
  }

  class Engine {
    const host: Host
    const roots: map<string, Root>

    constructor (host: Host, roots: map<string, Root>)
      ensures this.host == host && this.roots == roots
    {
      this.host, this.roots := host, roots;
    }

    method RestartPrevious(ghost c: Context, record: Instance, restart: bool)
      returns (errs: seq<Error>, ghost units: seq<Unit>)
      requires Underway(host, c) && host.phase.Rollback? && WorksOn(host.generates, c, record)
      requires restart || AllDown(c.mine, host.running)
      modifies host`running, host`trace, host`faults, host`said
      ensures Underway(host, c)
      ensures ReloadPhases(host.trace) == ReloadPhases(old(host.trace))
      ensures RollbackSourcesOk(host.trace) == RollbackSourcesOk(old(host.trace))
      ensures SameBut(old(host.running), host.running, c.mine)
      ensures errs == [] ==> forall u :: u in c.mine ==> host.UpToDate(u)
      ensures Failures(old(host.trace)) <= Failures(host.trace)
      ensures OwnRetried(host.generates, c, host.trace, host.loaded, host.running, restart)
      ensures host.faults >= old(host.faults)
      ensures c.controlled && Returned(c.start.store, c.own, host.loaded) && errs != [] ==>
        host.faults > old(host.faults)
      ensures ListsUnits(host.fileName, record.resources, units)
      ensures WentBack(LogOf(old(host.trace)), LogOf(host.trace), Runs(units, restart))
      ensures host.said == old(host.said) + errs
    {
      hide LogOf, WentBack, Runs;
      hide Underway, StopsOk, RollbackSourcesOk, ReloadPhases, Returned, Reachable, Controlled, Attempts, Failures;
      hide InFileOrder;
      var listed := SortedUnits(host.fileName, record.resources);
      units := listed;
      assert forall u :: u in units <==> u in UnitSet(units);
      if c.controlled && Returned(c.start.store, c.own, host.loaded) {
        ControlledRuns(host.generates, c, record, host.loaded);
      }
      errs := BringBack(host, c, listed, restart);
    }

    // The common end of every rollback but install's: reload once, bring the units back.
    method ReturnToService(ghost c: Context, record: Instance, restart: bool)
      returns (errs: seq<Error>, ghost units: seq<Unit>)
      requires Underway(host, c) && host.phase.Rollback? && Rollback !in ReloadPhases(host.trace)
      requires WorksOn(host.generates, c, record)
      requires RollbackSourcesOk(host.trace) ==> Returned(c.start.store, c.own, host.store)
      requires restart || AllDown(c.mine, host.running)
      modifies host`loaded, host`running, host`trace, host`faults, host`said
      ensures Underway(host, c)
      ensures Rollback in ReloadPhases(host.trace)
      ensures RollbackSourcesOk(host.trace) == RollbackSourcesOk(old(host.trace))
      ensures SameBut(old(host.running), host.running, c.mine)
      ensures errs == [] ==> host.loaded == host.store && forall u :: u in c.mine ==> host.UpToDate(u)
      ensures Failures(old(host.trace)) <= Failures(host.trace)
      ensures host.loaded == host.store || Reload in Failures(host.trace)
      ensures OwnRetried(host.generates, c, host.trace, host.loaded, host.running, restart)
      ensures host.faults >= old(host.faults)
      ensures c.controlled && RollbackSourcesOk(host.trace) && errs != [] ==> host.faults > old(host.faults)
      ensures ListsUnits(host.fileName, record.resources, units)
      ensures WentBack(LogOf(old(host.trace)), LogOf(host.trace), [Reload] + Runs(units, restart))
      ensures host.said == old(host.said) + errs
    {
      hide *;
      ghost var log := LogOf(host.trace);
      var reload := ReloadOnce(host, c);
      WentBackReloading(log, reload);
      ghost var reloaded := LogOf(host.trace);
      var others;
      others, units := RestartPrevious(c, record, restart);
      WentBackOn(log, reloaded, LogOf(host.trace), [Reload], Runs(units, restart));
      errs := (if reload.Some? then [reload.value] else []) + others;
    }

    // Put back the sources already gone.
    method PutRemovedBack(ghost c: Context, removed: seq<string>, snapshot: map<string, string>)
      returns (errs: seq<Error>)
      requires Underway(host, c) && host.phase.Rollback? && RollbackSourcesOk(host.trace)
      requires Distinct(removed) && forall n :: n in removed ==> n in c.own
      requires IsSnapshot(snapshot, c.start.store, c.own) && Reachable(c.start.store, c.own)
      requires Without(c.start.store, removed, host.store)
      modifies host`store, host`trace, host`faults, host`said
      ensures Underway(host, c)
      ensures ReloadPhases(host.trace) == ReloadPhases(old(host.trace))
      ensures RollbackSourcesOk(host.trace) <==> errs == []
      ensures errs == [] ==> Returned(c.start.store, c.own, host.store)
      ensures SourcesBack(c, host.trace, host.store)
      ensures host.faults >= old(host.faults) && (errs != [] ==> host.faults > old(host.faults))
      ensures WentBack(LogOf(old(host.trace)), LogOf(host.trace), Reinstalls(removed, snapshot))
      ensures host.said == old(host.said) + errs
    {
      hide *;
      RemovedAreGone(c.start.store, removed, host.store);
      errs := RestoreSources(host, c, removed, snapshot);
      RemovedAreBack(c, host.trace, removed, snapshot, old(host.store), host.store);
      if errs == [] {
        PutBack(c.start.store, c.own, removed, snapshot, old(host.store), host.store);
      }
    }

    // Failure while removing the record's sources: put back the ones already gone. An update
    // then restarts the units; a remove, which has stopped them all, starts them.
    method RollbackRemoved(
      ghost c: Context, record: Instance, snapshot: map<string, string>, removed: seq<string>, restart: bool,
      cause: Error)
      returns (e: Error, ghost units: seq<Unit>)
      requires Underway(host, c) && host.phase.Forward? && WorksOn(host.generates, c, record)
      requires Distinct(removed) && forall n :: n in removed ==> n in c.own
      requires IsSnapshot(snapshot, c.start.store, c.own)
      requires Without(c.start.store, removed, host.store)
      requires Stopped(c.start.running, host.running, c.mine) && (restart || AllDown(c.mine, host.running))
      requires !cause.RollbackFailed?
      modifies host`store, host`loaded, host`running, host`trace, host`faults, host`said, host`phase
      ensures Underway(host, c) && RolledBack(host, c, cause, e, restart) && host.phase.Rollback?
      ensures host.faults >= old(host.faults)
      ensures c.controlled && e != cause ==> host.faults > old(host.faults)
      ensures ListsUnits(host.fileName, record.resources, units)
      ensures WentBack(
        LogOf(old(host.trace)), LogOf(host.trace), Reinstalls(removed, snapshot) + ([Reload] + Runs(units, restart)))
      ensures host.said == old(host.said) + During(e)
    {
      hide *;
      BeginRollback(host, c);
      OwnIsReachable(host.generates, c, record);
      ghost var log, running := LogOf(host.trace), host.running;
      var errs := PutRemovedBack(c, removed, snapshot);
      ghost var restored := host.trace;
      var more;
      more, units := ReturnToService(c, record, restart);
      errs := errs + more;
      WentBackOn(
        log, LogOf(restored), LogOf(host.trace), Reinstalls(removed, snapshot), [Reload] + Runs(units, restart));
      SourcesStayBack(c, restored, host.trace, host.store);
      OnlyOwnTouched(c, host.trace, running, host.running);
      BestEffortMade(host, c, restart);
      OutcomeIsBare(cause, errs);
      RollbackEnds(host, c, cause, errs, restart);
      e := Outcome(cause, errs);
    }

    // Failure of an install: take its sources away again by force, then reload.
    method RollbackInstall(ghost c: Context, installed: seq<string>, ghost started: seq<Unit>, cause: Error)
      returns (e: Error)
      requires Underway(host, c) && host.phase.Forward? && c.own == {} && c.mine == {}
      requires Distinct(installed) && Replacing(c, installed, host.store)
      requires Services(installed) <= Concerned(c) && UnitSet(started) <= Services(installed)
      requires SameBut(c.start.running, host.running, UnitSet(started))
      requires !cause.RollbackFailed?
      modifies host`store, host`loaded, host`running, host`trace, host`faults, host`said, host`phase
      ensures Underway(host, c) && RolledBack(host, c, cause, e, false) && host.phase.Rollback?
      ensures e == cause ==> host.running == c.start.running - Services(installed)
      ensures host.faults >= old(host.faults)
      ensures e != cause ==> host.faults > old(host.faults)
      ensures WentBack(LogOf(old(host.trace)), LogOf(host.trace), RemovalsLastFirst(installed, true) + [Reload])
      ensures host.said == old(host.said) + During(e)
    {
      hide *;
      BeginRollback(host, c);
      ghost var log := LogOf(host.trace);
      MayTakeBack(c, installed, host.store);
      var errs := WithdrawSources(host, c, installed, true);
      InstallTakenBack(c, installed, started, old(host.store), host.store, old(host.running), host.running, errs);
      ghost var taken := host.trace;
      AllTaken(c, taken, installed, started, old(host.store), host.store, old(host.running), host.running);
      ghost var failed := errs;
      var reload := ReloadOnce(host, c);
      WentBackOne(log, LogOf(taken), RemovalsLastFirst(installed, true), Reload, reload.None?);
      if reload.Some? {
        errs := errs + [reload.value];
      }
      SourcesStayBack(c, taken, host.trace, host.store);
      OthersStayBack(c, taken, host.trace, host.running);
      NothingOfMine(host, c, false);
      BestEffortMade(host, c, false);
      OutcomeIsBare(cause, errs);
      RollbackEnds(host, c, cause, errs, false);
      e := Outcome(cause, errs);
    }

    // Take back the new sources, last first, and put the snapshot in their place.
    method SwapBack(
      ghost c: Context, snapshot: map<string, string>, installed: seq<string>)
      returns (errs: seq<Error>, ghost names: seq<string>)
      requires Underway(host, c) && host.phase.Rollback? && RollbackSourcesOk(host.trace)
      requires IsSnapshot(snapshot, c.start.store, c.own) && Reachable(c.start.store, c.own)
      requires Distinct(installed) && Replacing(c, installed, host.store) && Services(installed) <= Concerned(c)
      requires c.controlled && StopsOk(host.trace) ==> forall n :: n in installed ==> Service(n) !in host.running
      modifies host`store, host`running, host`trace, host`faults, host`said
      ensures Underway(host, c) && host.running == old(host.running)
      ensures ReloadPhases(host.trace) == ReloadPhases(old(host.trace))
      ensures RollbackSourcesOk(host.trace) ==> host.store == Reread(c.start.store, c.own)
      ensures RollbackSourcesOk(host.trace) ==> Returned(c.start.store, c.own, host.store)
      ensures SourcesBack(c, host.trace, host.store) && Failures(old(host.trace)) <= Failures(host.trace)
      ensures errs == [] ==> RollbackSourcesOk(host.trace)
      ensures StopsOk(host.trace) == StopsOk(old(host.trace))
      ensures host.faults >= old(host.faults)
      ensures c.controlled && StopsOk(host.trace) && errs != [] ==> host.faults > old(host.faults)
      ensures Lists(names, c.own)
      ensures WentBack(
        LogOf(old(host.trace)), LogOf(host.trace), RemovalsLastFirst(installed, false) + Reinstalls(names, snapshot))
      ensures host.said == old(host.said) + errs
    {
      hide *;
      SnapshotKeys(snapshot, c.start.store, c.own);
      UnderwayBetween(host, c);
      MayTakeBack(c, installed, host.store);
      ghost var log := LogOf(host.trace);
      var withdrawn := WithdrawSources(host, c, installed, false);
      ghost var mid, taken := host.store, host.trace;
      var sorted := SortedKeys(snapshot.Keys);
      names := sorted;
      ListingIsDistinct(sorted, c.own);
      if withdrawn == [] {
        NoneLeft(c, installed, false, sorted, old(host.store), mid, host.running);
      }
      var restored := RestoreSources(host, c, sorted, snapshot);
      WentBackOn(
        log, LogOf(taken), LogOf(host.trace), RemovalsLastFirst(installed, false), Reinstalls(sorted, snapshot));
      SwappedAreBack(
        c, false, taken, host.trace, installed, names, snapshot, old(host.store), mid, host.running, host.store);
      if withdrawn == [] && restored == [] {
        PutAllBack(c, installed, false, names, snapshot, old(host.store), mid, host.running, host.store);
      }
      errs := withdrawn + restored;
    }

    method RollbackUpdatedSources(
      ghost c: Context, record: Instance, snapshot: map<string, string>, installed: seq<string>, started: seq<Unit>,
      cause: Error)
      returns (e: Error, ghost names: seq<string>, ghost units: seq<Unit>)
      requires Underway(host, c) && host.phase.Forward? && StopsOk(host.trace) && WorksOn(host.generates, c, record)
      requires IsSnapshot(snapshot, c.start.store, c.own)
      requires Distinct(installed) && Replacing(c, installed, host.store) && Services(installed) <= Concerned(c)
      requires UnitSet(started) <= Services(installed)
      requires SameBut(c.start.running, host.running, c.mine + UnitSet(started))
      requires c.controlled ==> forall n :: n in installed && Service(n) in host.running ==> Service(n) in started
      requires !cause.RollbackFailed?
      modifies host`store, host`loaded, host`running, host`trace, host`faults, host`said, host`phase
      ensures Underway(host, c) && RolledBack(host, c, cause, e, true) && host.phase.Rollback?
      ensures RollbackSourcesOk(host.trace) ==> host.store == Reread(c.start.store, c.own)
      ensures host.faults >= old(host.faults)
      ensures c.controlled && (forall u :: u in started ==> old(host.CanRun(u))) && e != cause ==>
        host.faults > old(host.faults)
      ensures Lists(names, c.own) && ListsUnits(host.fileName, record.resources, units)
      ensures WentBack(LogOf(old(host.trace)), LogOf(host.trace), 
        StopsLastFirst(started) + (RemovalsLastFirst(installed, false) + Reinstalls(names, snapshot)) +
        ([Reload] + Runs(units, true)))
      ensures host.said == old(host.said) + During(e)
    {
      hide *;
      BeginRollback(host, c);
      OwnIsReachable(host.generates, c, record);
      StartedConcern(c, installed, started);
      MayTakeBack(c, installed, host.store);
      ghost var log := LogOf(host.trace);
      var errs := StopStarted(host, c, started);
      ghost var quiet := LogOf(host.trace);
      ghost var stopped := host.running;
      QuietAgain(c, installed, started, old(host.running), stopped);
      var unswapped;
      unswapped, names := SwapBack(c, snapshot, installed);
      ghost var swapped := host.trace;
      WentBackOn(
        log, quiet, LogOf(swapped), StopsLastFirst(started),
        RemovalsLastFirst(installed, false) + Reinstalls(names, snapshot));
      var more;
      more, units := ReturnToService(c, record, true);
      errs := errs + unswapped + more;
      WentBackOn(
        log, LogOf(swapped), LogOf(host.trace),
        StopsLastFirst(started) + (RemovalsLastFirst(installed, false) + Reinstalls(names, snapshot)),
        [Reload] + Runs(units, true));
      SourcesStayBack(c, swapped, host.trace, host.store);
      StoppedAreBack(c, host.trace, started, installed, old(host.running), stopped, host.running);
      BestEffortMade(host, c, true);
      if errs == [] {
        StartedAreDown(c, installed, started, old(host.running), stopped, host.running);
      }
      OutcomeIsBare(cause, errs);
      RollbackEnds(host, c, cause, errs, true);
      e := Outcome(cause, errs);
    }

    // Stop the record's units, in order. A failure here is not rolled back.
    method StopOwn(ghost c: Context, record: Instance, ghost restart: bool)
      returns (e: Option<Error>, ghost units: seq<Unit>)
      requires Underway(host, c) && host.phase.Forward? && StopsOk(host.trace) && host.Now() == c.start
      requires WorksOn(host.generates, c, record)
      modifies host`running, host`trace, host`faults, host`said
      ensures Underway(host, c)
      ensures e.Some? ==> e.value.UnitFailed? && Undone(host, c, record, e.value, restart)
      ensures e.None? ==> StopsOk(host.trace)
      ensures e.None? ==> ReloadPhases(host.trace) == ReloadPhases(old(host.trace))
      ensures e.None? ==> Stopped(c.start.running, host.running, c.mine) && AllDown(c.mine, host.running)
      ensures e.None? && c.controlled ==> Quiet(c, host.running)
      ensures host.faults >= old(host.faults)
      ensures e.Some? && c.controlled && c.start.loaded == c.start.store ==> host.faults > old(host.faults)
      ensures ListsUnits(host.fileName, record.resources, units)
      ensures e.None? ==> Went(LogOf(old(host.trace)), LogOf(host.trace), Stops(units), None)
      ensures e.Some? ==> WentSome(LogOf(old(host.trace)), LogOf(host.trace), Stops(units), e)
      ensures e.None? ==> host.said == old(host.said)
      ensures e.Some? ==> host.said == old(host.said) + Told(e) && Cause(e) == e && CauseOf(e.value) == e.value
    {
      hide LogOf, Went, WentSome, Stops, Told, Cause, CauseOf, Voiced;
      hide Underway, StopsOk, RollbackSourcesOk, ReloadPhases, Undone, Concerned, Controlled, Quiet, Reachable;
      hide InFileOrder, FirstDown, Lists;
      var listed := SortedUnits(host.fileName, record.resources);
      units := listed;
      assert forall u :: u in units <==> u in UnitSet(units);
      OwnUnits(host.generates, c, record);
      e := StopUnits(host, c, listed);
      if e.Some? {
        StopFailureIsUndone(host, c, record, units, e.value, restart);
        ToldPlainly(e);
        StoppedSome(LogOf(old(host.trace)), LogOf(host.trace), old(host.running), host.running, units, e);
      } else if c.controlled {
        StoppedIsQuiet(host.generates, c, record, host.running);
      }
    }

    // Stop the record's units and remove its sources: how both update and remove begin.
    method ClearSources(ghost c: Context, record: Instance, snapshot: map<string, string>, restart: bool)
      returns (e: Option<Error>, ghost units: seq<Unit>, ghost names: seq<string>)
      requires Underway(host, c) && host.phase.Forward? && StopsOk(host.trace) && host.Now() == c.start
      requires WorksOn(host.generates, c, record)
      requires IsSnapshot(snapshot, c.start.store, c.own)
      modifies host`store, host`loaded, host`running, host`trace, host`faults, host`said, host`phase
      ensures e.Some? ==> Undone(host, c, record, e.value, restart)
      ensures e.None? ==> Underway(host, c) && host.phase.Forward? && StopsOk(host.trace)
      ensures e.None? ==> ReloadPhases(host.trace) == ReloadPhases(old(host.trace))
      ensures e.None? ==> host.store == c.start.store - c.own && host.loaded == c.start.loaded
      ensures e.None? ==> Stopped(c.start.running, host.running, c.mine) && AllDown(c.mine, host.running)
      ensures e.None? && c.controlled ==> Quiet(c, host.running)
      ensures host.faults >= old(host.faults)
      ensures e.Some? && c.controlled && c.start.loaded == c.start.store ==> host.faults > old(host.faults)
      ensures e.Some? && e.value.RollbackFailed? && c.controlled ==> host.faults >= old(host.faults) + 2
      ensures ListsUnits(host.fileName, record.resources, units) && Lists(names, record.resources.Keys)
      ensures e.None? ==> Went(LogOf(old(host.trace)), LogOf(host.trace), Stops(units) + Removals(names), None)
      ensures e.Some? ==>
        WentSome(LogOf(old(host.trace)), LogOf(host.trace), Stops(units) + Removals(names), Cause(e))
      ensures e.Some? ==> !CauseOf(e.value).UnitNotGenerated?
      ensures host.said == old(host.said) + Told(e)
    {
      hide *;
      StandsAt(host, c.start);
      ghost var log := LogOf(host.trace);
      e, units := StopOwn(c, record, restart);
      if e.Some? {
        names := SomeListing(record.resources.Keys);
        SomeOfMore(log, LogOf(host.trace), Stops(units), Removals(names), e);
        return;
      }
      ghost var stopped := LogOf(host.trace);
      e, names := RemoveOwn(c, record, snapshot, restart);
      if e.Some? {
        AllThenSome(log, stopped, LogOf(host.trace), Stops(units), Removals(names), Cause(e));
      } else {
        WentOn(log, stopped, LogOf(host.trace), Stops(units), Removals(names), None);
      }
    }

    // Remove the sources of a record whose units are down.
    method RemoveOwn(ghost c: Context, record: Instance, snapshot: map<string, string>, restart: bool)
      returns (e: Option<Error>, ghost names: seq<string>)
      requires Underway(host, c) && host.phase.Forward? && StopsOk(host.trace)
      requires host.store == c.start.store && host.loaded == c.start.loaded
      requires WorksOn(host.generates, c, record) && (c.controlled ==> Quiet(c, host.running))
      requires Stopped(c.start.running, host.running, c.mine) && AllDown(c.mine, host.running)
      requires IsSnapshot(snapshot, c.start.store, c.own)
      modifies host`store, host`loaded, host`running, host`trace, host`faults, host`said, host`phase
      ensures e.Some? ==> Undone(host, c, record, e.value, restart)
      ensures e.None? ==> Underway(host, c) && host.phase.Forward? && StopsOk(host.trace)
      ensures e.None? ==> ReloadPhases(host.trace) == ReloadPhases(old(host.trace))
      ensures e.None? ==> host.store == c.start.store - c.own && host.loaded == c.start.loaded
      ensures e.None? ==> host.running == old(host.running)
      ensures host.faults >= old(host.faults)
      ensures e.Some? && c.controlled ==> host.faults > old(host.faults)
      ensures e.Some? && e.value.RollbackFailed? && c.controlled ==> host.faults >= old(host.faults) + 2
      ensures Lists(names, record.resources.Keys)
      ensures e.None? ==> Went(LogOf(old(host.trace)), LogOf(host.trace), Removals(names), None)
      ensures e.Some? ==> WentSome(LogOf(old(host.trace)), LogOf(host.trace), Removals(names), Cause(e))
      ensures e.Some? ==> CauseOf(e.value).SourceRefused?
      ensures host.said == old(host.said) + Told(e)
    {
      hide *;
      if c.controlled {
        OwnIsQuiet(c, host.running);
      }
      var sorted := SortedKeys(record.resources.Keys);
      names := sorted;
      OwnListed(host.generates, c, record, sorted);
      ghost var log := LogOf(host.trace);
      var removed;
      removed, e := RemoveSources(host, c, sorted);
      ToldPlainly(e);
      if e.Some? {
        RemovalsPrefix(sorted, |removed| + 1);
        DistinctFirst(removed, sorted);
        ghost var failed := LogOf(host.trace);
        ghost var again;
        var r;
        r, again := RollbackRemoved(c, record, snapshot, removed, restart, e.value);
        GivenUpBack(
          host, c, record, e.value, r, restart, log, failed, Removals(sorted[..|removed| + 1]),
          Reinstalls(removed, snapshot) + ([Reload] + Runs(again, restart)), Removals(sorted));
        e := Some(r);
      } else {
        WithoutAll(c.start.store, names, c.own, host.store);
      }
    }

    // Install the plan's sources where the record's were.
    method InstallReplacement(ghost c: Context, plan: Plan, record: Instance, snapshot: map<string, string>)
      returns (installed: seq<string>, e: Option<Error>)
      requires Underway(host, c) && host.phase.Forward? && StopsOk(host.trace)
      requires WorksOn(host.generates, c, record) && c.offers == Offers(plan.resources)
      requires IsSnapshot(snapshot, c.start.store, c.own)
      requires host.store == c.start.store - c.own && (c.controlled ==> Quiet(c, host.running))
      requires Stopped(c.start.running, host.running, c.mine)
      modifies host`store, host`loaded, host`running, host`trace, host`faults, host`said, host`phase
      ensures e.Some? ==> Undone(host, c, record, e.value, true)
      ensures e.None? ==> Underway(host, c) && host.phase.Forward? && StopsOk(host.trace)
      ensures e.None? ==> ReloadPhases(host.trace) == ReloadPhases(old(host.trace))
      ensures e.None? ==> host.running == old(host.running) && host.loaded == old(host.loaded)
      ensures e.None? ==>
        installed == Names(plan.resources) && Distinct(installed) && Replacing(c, installed, host.store)
      ensures e.None? ==> host.store == (c.start.store - c.own) + SourceMap(plan.resources)
      ensures host.faults >= old(host.faults)
      ensures e.Some? && PlanFits(host.generates, c.start.store, plan, c.own) ==> host.faults > old(host.faults)
      ensures e.Some? && e.value.RollbackFailed? && c.controlled ==>
        host.faults >= old(host.faults) + if PlanFits(host.generates, c.start.store, plan, c.own) then 2 else 1
      ensures e.None? ==> Went(LogOf(old(host.trace)), LogOf(host.trace), Installs(plan.resources), None)
      ensures e.Some? ==> WentSome(LogOf(old(host.trace)), LogOf(host.trace), Installs(plan.resources), Cause(e))
      ensures e.Some? ==> !CauseOf(e.value).UnitNotGenerated?
      ensures host.said == old(host.said) + Told(e)
    {
      hide Told, Cause, During;
      hide LogOf, Went, WentSome, WentBack, Installs, Reinstalls, RemovalsLastFirst, StopsLastFirst, Runs;
      hide ListsUnits, Lists;
      hide Underway, StopsOk, RollbackSourcesOk, ReloadPhases, PlanFits, SourceMap, WorksOn, Undone, RolledBack;
      hide Returned, Reread, Concerned, Quiet, ClientAccepts, Cut, IsSnapshot, Replacing, Stopped, SameBut, Services;
      hide Offers, UnitSet;
      PlanUnits(plan.resources, c);
      OfferedAll(c, plan.resources);
      ghost var log := LogOf(host.trace);
      installed, e := InstallSources(host, c, plan.resources);
      PlacedIs(old(host.store), plan.resources, |installed|, installed, host.store);
      ToldPlainly(e);
      InstalledInPlace(c, installed, old(host.store), host.store);
      NoneStarted(c, installed, host.running);
      InstalledUnits(c, plan.resources, |installed|);
      if c.controlled {
        QuietInstalled(c, plan.resources, installed, host.store, host.running);
      }
      if e.Some? {
        if PlanFits(host.generates, c.start.store, plan, c.own) {
          FitsMeansFree(host.generates, c.start.store, plan, c.own, |installed|);
        }
        ghost var failed, calls := LogOf(host.trace), Installs(plan.resources[..|installed| + 1]);
        InstallsPrefix(plan.resources, |installed| + 1);
        ghost var names, units;
        var r;
        r, names, units := RollbackUpdatedSources(c, record, snapshot, installed, [], e.value);
        GivenUpBack(
          host, c, record, e.value, r, true, log, failed, calls,
          StopsLastFirst([]) + (RemovalsLastFirst(installed, false) + Reinstalls(names, snapshot)) +
            ([Reload] + Runs(units, true)), Installs(plan.resources));
        e := Some(r);
        return;
      }
      assert plan.resources[..|plan.resources|] == plan.resources;
    }

    // Second half of an update: reload, restart and verify the new units, read the new
    // baselines back.
    method ServeReplacement(
      ghost c: Context, plan: Plan, record: Instance, snapshot: map<string, string>, installed: seq<string>)
      returns (resources: map<string, ResourceState>, e: Option<Error>)
      requires Underway(host, c) && host.phase.Forward? && StopsOk(host.trace) && Forward !in ReloadPhases(host.trace)
      requires WorksOn(host.generates, c, record) && IsSnapshot(snapshot, c.start.store, c.own)
      requires plan.operation.Update? && c.offers == Offers(plan.resources)
      requires installed == Names(plan.resources) && Distinct(installed) && Replacing(c, installed, host.store)
      requires host.store == c.target
      requires Stopped(c.start.running, host.running, c.mine) && AllDown(c.mine, host.running)
      requires c.controlled ==> forall n :: n in installed ==> Service(n) !in host.running
      modifies host`store, host`loaded, host`running, host`trace, host`faults, host`said, host`phase
      ensures e.Some? ==> Undone(host, c, record, e.value, true)
      ensures e.None? ==> Underway(host, c) && host.phase.Forward?
      ensures e.None? ==> ReloadPhases(host.trace) == ReloadPhases(old(host.trace)) + {Forward}
      ensures e.None? ==> host.store == c.target && InService(host.generates, c, plan, host.Now())
      ensures e.None? ==> Captured(host.generates, resources, plan.resources, host.store)
      ensures host.faults >= old(host.faults)
      ensures e.Some? && AllGenerate(host.generates, plan.resources, c.target) ==> host.faults > old(host.faults)
      ensures e.Some? && e.value.RollbackFailed? && c.controlled ==>
        host.faults >= old(host.faults) + if AllGenerate(host.generates, plan.resources, c.target) then 2 else 1
      ensures e.None? ==> Went(LogOf(old(host.trace)), LogOf(host.trace), ServingCalls(plan.resources, true), None)
      ensures e.Some? ==>
        WentSome(LogOf(old(host.trace)), LogOf(host.trace), ServingCalls(plan.resources, true), Cause(e))
      ensures e.Some? ==> NotGenerated(host.generates, plan, c.target, CauseOf(e.value))
      ensures host.said == old(host.said) + Told(e)
    {
      hide Told, Cause, During, CauseOf, ServedUpTo, NotGenerated, Voiced;
      hide LogOf, Went, WentSome, WentBack, ServingCalls, Reinstalls, RemovalsLastFirst, StopsLastFirst, Runs;
      hide ListsUnits, Lists;
      hide Underway, StopsOk, RollbackSourcesOk, ReloadPhases, WorksOn, Captured, AllGenerate, Undone;
      hide RolledBack, Returned, Reread, Concerned, InService, SameBut, Stopped, ClientAccepts, Cut, IsSnapshot;
      hide Replacing, Reachable, Wanted, Services, UnitSet;
      PlanUnits(plan.resources, c);
      InstalledUnits(c, plan.resources, |plan.resources|);
      assert plan.resources[..|plan.resources|] == plan.resources;
      ReplacedIsReachable(c, installed, host.store);
      var started;
      ghost var log := LogOf(host.trace);
      started, resources, e := Serve(host, c, plan.resources, true);
      ServedIsPrefix(host.generates, host.store, plan.resources, started, e, true);
      ServedNames(host.generates, host.store, plan, started, e);
      ToldPlainly(e);
      ServedBetween(host, c, plan, installed, started, old(host.running));
      if e.Some? {
        ghost var failed := LogOf(host.trace);
        ghost var names, units;
        var r;
        r, names, units := RollbackUpdatedSources(c, record, snapshot, installed, started, e.value);
        GivenUpBack(
          host, c, record, e.value, r, true, log, failed, [Reload] + Runs(started, true),
          StopsLastFirst(started) + (RemovalsLastFirst(installed, false) + Reinstalls(names, snapshot)) +
            ([Reload] + Runs(units, true)), ServingCalls(plan.resources, true));
        e := Some(r);
      } else {
        UpdateServed(host, c, plan, started, old(host.running));
      }
    }

    // Everything an update does before it saves the new record.
    method ReplaceRecord(ghost c: Context, plan: Plan, record: Instance, snapshot: map<string, string>)
      returns (
        resources: map<string, ResourceState>, e: Option<Error>, ghost units: seq<Unit>, ghost names: seq<string>)
      requires Underway(host, c) && StopsOk(host.trace) && host.phase.Forward? && host.Now() == c.start
      requires ReloadPhases(host.trace) == {}
      requires c.offers == Offers(plan.resources) && c.target == (c.start.store - c.own) + SourceMap(plan.resources)
      requires WorksOn(host.generates, c, record) && IsSnapshot(snapshot, c.start.store, c.own)
      requires plan.operation.Update?
      modifies host`store, host`loaded, host`running, host`trace, host`faults, host`said, host`phase
      ensures e.Some? ==> Undone(host, c, record, e.value, true)
      ensures e.None? ==> Underway(host, c) && host.phase.Forward?
      ensures e.None? ==> ReloadPhases(host.trace) == {Forward}
      ensures e.None? ==> Distinct(Names(plan.resources)) && Replacing(c, Names(plan.resources), host.store)
      ensures e.None? ==> host.store == c.target && InService(host.generates, c, plan, host.Now())
      ensures e.None? ==> Captured(host.generates, resources, plan.resources, host.store)
      ensures host.faults >= old(host.faults)
      ensures c.controlled && e.Some? && e.value.RollbackFailed? ==>
        host.faults >= old(host.faults) + if PlanFits(host.generates, c.start.store, plan, c.own) then 2 else 1
      ensures c.controlled && e.Some? && c.start.loaded == c.start.store ==>
        PlanFits(host.generates, c.start.store, plan, c.own) ==> host.faults > old(host.faults)
      ensures ListsUnits(host.fileName, record.resources, units) && Lists(names, record.resources.Keys)
      ensures e.None? ==> Went(LogOf(old(host.trace)), LogOf(host.trace), Script(plan, units, names), None)
      ensures e.Some? ==> WentSome(LogOf(old(host.trace)), LogOf(host.trace), Script(plan, units, names), Cause(e))
      ensures host.said == old(host.said) + Told(e)
      ensures e.Some? ==> NotGenerated(host.generates, plan, c.target, CauseOf(e.value))
    {
      hide LogOf, Went, WentSome, Script, Stops, Removals, Installs, ServingCalls, ListsUnits, Lists, Told, Cause;
      hide CauseOf, Voiced, During, NotGenerated, Concerned, Reachable, Controlled, SameBut;
      hide Underway, StopsOk, RollbackSourcesOk, ReloadPhases, WorksOn, AllGenerate, PlanFits, Captured, Undone;
      hide InService, Quiet, ClientAccepts, Cut, IsSnapshot, Replacing, SourceMap, Stopped, AllDown;
      resources := map[];
      ghost var log := LogOf(host.trace);
      ToldPlainly(None);
      e, units, names := ClearSources(c, record, snapshot, true);
      UpdateScript(plan, units, names);
      ghost var clear, place, serve :=
        Stops(units) + Removals(names), Installs(plan.resources), ServingCalls(plan.resources, true);
      if e.Some? {
        SomeOfMore(log, LogOf(host.trace), clear, place + serve, Cause(e));
        NeverUngenerated(host.generates, plan, c.target, CauseOf(e.value));
        return;
      }
      ghost var cleared := LogOf(host.trace);
      var installed;
      installed, e := InstallReplacement(c, plan, record, snapshot);
      if e.Some? {
        SomeOfMore(cleared, LogOf(host.trace), place, serve, Cause(e));
        AllThenSome(log, cleared, LogOf(host.trace), clear, place + serve, Cause(e));
        NeverUngenerated(host.generates, plan, c.target, CauseOf(e.value));
        return;
      }
      ghost var placed := LogOf(host.trace);
      WentOn(log, cleared, placed, clear, place, None);
      if c.controlled {
        QuietInstalled(c, plan.resources, installed, host.store, host.running);
      }
      if PlanFits(host.generates, c.start.store, plan, c.own) {
        FitsMeansGenerated(host.generates, c.start.store, plan, c.own);
      }
      resources, e := ServeReplacement(c, plan, record, snapshot, installed);
      if e.Some? {
        AllThenSome(log, placed, LogOf(host.trace), clear + place, serve, Cause(e));
      } else {
        WentOn(log, placed, LogOf(host.trace), clear + place, serve, None);
      }
    }

    // Save the record of a deployed plan: install and update end alike, but for the install
    // date and the history, which an update carries on.
    method RecordDeployed(
      ghost c: Context, plan: Plan, previous: Option<Instance>, resources: map<string, ResourceState>)
      returns (e: Option<Error>, ghost saved: Instance)
      requires Underway(host, c) && host.phase.Forward? && c == ContextOf(host.generates, c.start, plan)
      requires plan.operation == if previous.Some? then Operation.Update else Operation.Install
      requires previous.Some? ==>
        plan.instanceId in c.start.records && previous.value == c.start.records[plan.instanceId]
      requires host.store == c.target && Captured(host.generates, resources, plan.resources, host.store)
      requires Distinct(Names(plan.resources)) && Replacing(c, Names(plan.resources), host.store)
      requires InService(host.generates, c, plan, host.Now()) && ReloadPhases(host.trace) == {Forward}
      modifies host`records, host`docs, host`trace, host`faults, host`said, host`clock
      ensures Settled(host, c, plan, e) && ServiceOutcome(host, c, plan, e) && Through(e)
      ensures Documented(c, plan, e, host.records, old(host.docs), host.docs)
      ensures host.faults == old(host.faults) + if e.Some? then 1 else 0
      ensures Went(LogOf(old(host.trace)), LogOf(host.trace), [SaveRecord(saved)], e)
      ensures host.said == old(host.said) + if e.Some? then [e.value] else []
      ensures host.clock >= old(host.clock) && Dated(c.id, plan, e, host.records, old(host.clock), host.clock)
    {
      hide LogOf, Went;
      hide Good, Linked, Untouched, Between, RollbackSourcesOk, ReloadPhases, Replacing, Settled, Controlled;
      hide SourceMap, Captured, Honest, InService, ServiceOutcome, ClientAccepts, Cut, UnitsOf, Distinct;
      ghost var served := host.Now();
      var now := host.Clock();
      var record := Instance(
        plan.instanceId, plan.appId, plan.catalogVersion, plan.parameters, resources, plan.directories,
        if previous.Some? then previous.value.installedAt else now, now, None,
        (if previous.Some? then previous.value.history else []) + [Entry(now, plan.operation)]);
      saved := record;
      CapturedIsHonest(host.generates, record, plan.resources, host.store);
      e := Commit(host, c, record);
      StillInService(host.generates, c, plan, served, host.Now());
      DeployedIsSettled(host, c, plan, previous, record, e);
      GoneThrough(host, c, plan, e);
    }

    method Update(ghost c: Context, plan: Plan, record: Instance, snapshot: map<string, string>)
      returns (e: Option<Error>)
      requires Begins(host, c, plan) && host.said == [] && plan.operation.Update?
      requires plan.instanceId in host.records && record == host.records[plan.instanceId]
      requires Reachable(host.store, c.own) && IsSnapshot(snapshot, c.start.store, c.own)
      modifies host`store, host`loaded, host`running, host`records, host`docs, host`trace, host`faults, host`said,
        host`phase, host`clock
      ensures Settled(host, c, plan, e)
      ensures ServiceOutcome(host, c, plan, e)
      ensures FaultBound(host, c, plan, e, old(host.faults), true)
      ensures Documented(c, plan, e, host.records, old(host.docs), host.docs)
      ensures Explained(host, c.start.records, plan, c.target, e)
      ensures host.clock >= old(host.clock) && Dated(c.id, plan, e, host.records, old(host.clock), host.clock)
    {
      hide LogOf, Went, WentSome, Script, ListsUnits, Lists, Told, Cause, CauseOf, NotGenerated, Followed, ScriptOf;
      hide Explained;
      hide Underway, WorksOn, StopsOk, PlanFits, Replacing, Settled, Controlled, SourceMap, Captured, Distinct;
      hide RollbackSourcesOk, ReloadPhases, Undone, InService, ServiceOutcome, UnitsOf, Offers, Reachable;
      hide IsSnapshot;
      BeginsUnderway(host, c, plan);
      BeginsWorking(host, c, plan, record);
      var resources;
      ghost var units, names;
      resources, e, units, names := ReplaceRecord(c, plan, record, snapshot);
      OfRecord(host.fileName, c.start.records, plan, units, names);
      if e.Some? {
        GivenUp(host, c, plan, record, e.value);
        PartlyExplained(host, c.start.records, plan, c.target, units, names, e);
        return;
      }
      ghost var replaced := LogOf(host.trace);
      ToldPlainly(None);
      ghost var saved;
      e, saved := RecordDeployed(c, plan, Some(record), resources);
      FullyExplained(host, c.start.records, plan, c.target, units, names, replaced, saved, e);
    }

    // Everything a remove does before it saves the record.
    method ClearAndReload(ghost c: Context, plan: Plan, record: Instance, snapshot: map<string, string>)
      returns (e: Option<Error>, ghost units: seq<Unit>, ghost names: seq<string>)
      requires Underway(host, c) && StopsOk(host.trace) && host.phase.Forward? && host.Now() == c.start
      requires ReloadPhases(host.trace) == {} && plan.operation.Remove?
      requires c.target == c.start.store - c.own
      requires WorksOn(host.generates, c, record) && IsSnapshot(snapshot, c.start.store, c.own)
      modifies host`store, host`loaded, host`running, host`trace, host`faults, host`said, host`phase
      ensures e.Some? ==> Undone(host, c, record, e.value, false)
      ensures e.None? ==> Underway(host, c) && host.phase.Forward?
      ensures e.None? ==> ReloadPhases(host.trace) == {Forward}
      ensures e.None? ==> host.store == c.target && InService(host.generates, c, plan, host.Now())
      ensures host.faults >= old(host.faults)
      ensures c.controlled && e.Some? && e.value.RollbackFailed? ==> host.faults >= old(host.faults) + 2
      ensures c.controlled && e.Some? && c.start.loaded == c.start.store ==> host.faults > old(host.faults)
      ensures ListsUnits(host.fileName, record.resources, units) && Lists(names, record.resources.Keys)
      ensures e.None? ==> Went(LogOf(old(host.trace)), LogOf(host.trace), Script(plan, units, names), None)
      ensures e.Some? ==> WentSome(LogOf(old(host.trace)), LogOf(host.trace), Script(plan, units, names), Cause(e))
      ensures host.said == old(host.said) + Told(e)
      ensures e.Some? ==> NotGenerated(host.generates, plan, c.target, CauseOf(e.value))
    {
      hide *;
      ghost var log := LogOf(host.trace);
      ToldPlainly(None);
      e, units, names := ClearSources(c, record, snapshot, false);
      RemoveScript(plan, units, names);
      if e.Some? {
        NeverUngenerated(host.generates, plan, c.target, CauseOf(e.value));
        SomeOfMore(log, LogOf(host.trace), Stops(units) + Removals(names), [Reload], Cause(e));
        return;
      }
      ghost var cleared := LogOf(host.trace);
      e := ReloadCleared(c, plan, record, snapshot, names);
      if e.Some? {
        NeverUngenerated(host.generates, plan, c.target, CauseOf(e.value));
        AllThenSome(log, cleared, LogOf(host.trace), Stops(units) + Removals(names), [Reload], Cause(e));
      } else {
        WentOn(log, cleared, LogOf(host.trace), Stops(units) + Removals(names), [Reload], None);
      }
    }

    // Reload once the sources are gone.
    method ReloadCleared(
      ghost c: Context, plan: Plan, record: Instance, snapshot: map<string, string>, ghost listed: seq<string>)
      returns (e: Option<Error>)
      requires Underway(host, c) && host.phase.Forward? && Forward !in ReloadPhases(host.trace)
      requires plan.operation.Remove? && c.target == host.store == c.start.store - c.own
      requires WorksOn(host.generates, c, record) && IsSnapshot(snapshot, c.start.store, c.own)
      requires Stopped(c.start.running, host.running, c.mine) && AllDown(c.mine, host.running)
      modifies host`store, host`loaded, host`running, host`trace, host`faults, host`said, host`phase
      ensures e.Some? ==> Undone(host, c, record, e.value, false)
      ensures e.None? ==> Underway(host, c) && host.phase.Forward?
      ensures e.None? ==> ReloadPhases(host.trace) == ReloadPhases(old(host.trace)) + {Forward}
      ensures e.None? ==> host.store == c.target && InService(host.generates, c, plan, host.Now())
      ensures host.faults >= old(host.faults) && (e.Some? ==> host.faults > old(host.faults))
      ensures c.controlled && e.Some? && e.value.RollbackFailed? ==> host.faults >= old(host.faults) + 2
      ensures e.None? ==> Went(LogOf(old(host.trace)), LogOf(host.trace), [Reload], None)
      ensures e.Some? ==> WentSome(LogOf(old(host.trace)), LogOf(host.trace), [Reload], Cause(e))
      ensures host.said == old(host.said) + Told(e)
      ensures e.Some? ==> CauseOf(e.value).ReloadFailed?
    {
      hide *;
      ghost var log := LogOf(host.trace);
      e := ReloadOnce(host, c);
      WentReloading(log, e, false);
      ToldPlainly(e);
      if e.Some? {
        ghost var failed := LogOf(host.trace);
        var names := SortedKeys(record.resources.Keys);
        OwnListed(host.generates, c, record, names);
        OwnIsRecords(host.generates, c, record);
        var r;
        ghost var units;
        r, units := RollbackRemoved(c, record, snapshot, names, false, e.value);
        GivenUpBack(
          host, c, record, e.value, r, false, log, failed, [Reload],
          Reinstalls(names, snapshot) + ([Reload] + Runs(units, false)), [Reload]);
        e := Some(r);
      } else {
        RemovalServed(host, c, plan);
      }
    }

    // Read the record an update or remove works on, and its sources.
    method Recall(ghost c: Context, plan: Plan)
      returns (e: Option<Error>, record: Instance, snapshot: map<string, string>)
      requires Begins(host, c, plan) && host.said == [] && (plan.operation.Update? || plan.operation.Remove?)
      requires plan.instanceId in host.records && Reachable(host.store, c.own)
      modifies host`faults, host`said
      ensures e.None? ==> Begins(host, c, plan) && host.said == [] && record == host.records[plan.instanceId]
      ensures e.None? ==> IsSnapshot(snapshot, c.start.store, c.own) && host.faults == old(host.faults)
      ensures e.Some? ==> Settled(host, c, plan, e) && ServiceOutcome(host, c, plan, e)
      ensures e.Some? ==> Explained(host, c.start.records, plan, c.target, e)
      ensures e.Some? ==> !Through(e) && !e.value.RollbackFailed? && host.faults > old(host.faults)
    {
      hide LogOf, Settled, ServiceOutcome, Explained, Controlled, UnitsOf, Offers, SourceMap, Reachable, IsSnapshot;
      var found;
      snapshot := map[];
      record := *;
      e, found := host.GetInstance(plan.instanceId);
      if e.Some? {
        NothingDone(host, c, plan, e.value);
        NothingCalled(host, c.start.records, plan, c.target, e.value);
        return;
      }
      record := found.value;
      e, snapshot := Snapshot(host, record.resources.Keys);
      if e.Some? {
        NothingDone(host, c, plan, e.value);
        NothingCalled(host, c.start.records, plan, c.target, e.value);
      }
    }

    method Remove(ghost c: Context, plan: Plan) returns (e: Option<Error>)
      requires Begins(host, c, plan) && host.said == [] && plan.operation.Remove?
      requires plan.instanceId in host.records && Reachable(host.store, c.own)
      modifies host`store, host`loaded, host`running, host`records, host`docs, host`trace, host`faults, host`said,
        host`phase, host`clock
      ensures Settled(host, c, plan, e)
      ensures ServiceOutcome(host, c, plan, e)
      ensures FaultBound(host, c, plan, e, old(host.faults), true)
      ensures Documented(c, plan, e, host.records, old(host.docs), host.docs)
      ensures Explained(host, c.start.records, plan, c.target, e)
      ensures host.clock >= old(host.clock) && Dated(c.id, plan, e, host.records, old(host.clock), host.clock)
    {
      hide LogOf, Went, WentSome, Script, ListsUnits, Lists, Told, Cause, CauseOf, NotGenerated, Followed, ScriptOf;
      hide Underway, WorksOn, StopsOk, Settled, Controlled, RollbackSourcesOk, ReloadPhases, Undone, InService;
      hide ServiceOutcome, UnitsOf, Reachable, IsSnapshot, Honest, Explained;
      var record, snapshot;
      e, record, snapshot := Recall(c, plan);
      if e.Some? {
        return;
      }
      BeginsUnderway(host, c, plan);
      BeginsWorking(host, c, plan, record);
      ghost var units, names;
      e, units, names := ClearAndReload(c, plan, record, snapshot);
      OfRecord(host.fileName, c.start.records, plan, units, names);
      if e.Some? {
        GivenUp(host, c, plan, record, e.value);
        PartlyExplained(host, c.start.records, plan, c.target, units, names, e);
        return;
      }
      ghost var cleared := LogOf(host.trace);
      ToldPlainly(None);
      ghost var saved;
      e, saved := RecordRemoved(c, plan, record);
      FullyExplained(host, c.start.records, plan, c.target, units, names, cleared, saved, e);
    }

    // Mark the record of a removed instance.
    method RecordRemoved(ghost c: Context, plan: Plan, record: Instance)
      returns (e: Option<Error>, ghost saved: Instance)
      requires Underway(host, c) && host.phase.Forward? && c == ContextOf(host.generates, c.start, plan)
      requires plan.operation.Remove?
      requires plan.instanceId in c.start.records && record == c.start.records[plan.instanceId]
      requires host.store == c.target
      requires InService(host.generates, c, plan, host.Now()) && ReloadPhases(host.trace) == {Forward}
      modifies host`records, host`docs, host`trace, host`faults, host`said, host`clock
      ensures Settled(host, c, plan, e) && ServiceOutcome(host, c, plan, e) && Through(e)
      ensures Documented(c, plan, e, host.records, old(host.docs), host.docs)
      ensures host.faults == old(host.faults) + if e.Some? then 1 else 0
      ensures Went(LogOf(old(host.trace)), LogOf(host.trace), [SaveRecord(saved)], e)
      ensures host.said == old(host.said) + if e.Some? then [e.value] else []
      ensures host.clock >= old(host.clock) && Dated(c.id, plan, e, host.records, old(host.clock), host.clock)
    {
      hide LogOf, Went;
      hide Good, Linked, Untouched, Between, RollbackSourcesOk, ReloadPhases, Settled, Controlled, InService;
      hide ServiceOutcome, UnitsOf;
      ghost var served := host.Now();
      var now := host.Clock();
      var marked := record.(
        removedAt := Some(now), updatedAt := now, history := record.history + [Entry(now, Operation.Remove)]);
      saved := marked;
      e := Commit(host, c, marked);
      StillInService(host.generates, c, plan, served, host.Now());
      RemovedIsSettled(host, c, plan, record, now, e);
      GoneThrough(host, c, plan, e);
    }

    method Install(ghost c: Context, plan: Plan) returns (e: Option<Error>)
      requires Begins(host, c, plan) && host.said == [] && plan.operation.Install?
      modifies host`store, host`loaded, host`running, host`records, host`docs, host`trace, host`faults, host`said,
        host`phase, host`clock
      ensures Settled(host, c, plan, e)
      ensures ServiceOutcome(host, c, plan, e)
      ensures FaultBound(host, c, plan, e, old(host.faults), true)
      ensures Documented(c, plan, e, host.records, old(host.docs), host.docs)
      ensures Explained(host, c.start.records, plan, c.target, e)
      ensures host.clock >= old(host.clock) && Dated(c.id, plan, e, host.records, old(host.clock), host.clock)
    {
      hide Underway, StopsOk, PlanFits, Replacing, Settled, Controlled, SourceMap, Captured, Distinct;
      hide RollbackSourcesOk, ReloadPhases, InService, ServiceOutcome, UnitsOf, Offers;
      hide LogOf, Went, WentSome, Script, Told, Cause, CauseOf, NotGenerated, Followed, Explained;
      BeginsUnderway(host, c, plan);
      var resources;
      resources, e := Deploy(c, plan);
      if e.Some? {
        PartlyExplained(host, c.start.records, plan, c.target, [], [], e);
        return;
      }
      ghost var deployed := LogOf(host.trace);
      ToldPlainly(None);
      ghost var saved;
      e, saved := RecordDeployed(c, plan, None, resources);
      FullyExplained(host, c.start.records, plan, c.target, [], [], deployed, saved, e);
    }

    // The forward part of an install.
    method InstallAndServe(ghost c: Context, plan: Plan)
      returns (
        installed: seq<string>, ghost started: seq<Unit>, resources: map<string, ResourceState>, e: Option<Error>)
      requires Underway(host, c) && host.phase.Forward? && host.Now() == c.start && c.own == {} && c.mine == {}
      requires ReloadPhases(host.trace) == {} && plan.operation.Install?
      requires c.offers == Offers(plan.resources) && c.target == c.start.store + SourceMap(plan.resources)
      modifies host`store, host`loaded, host`running, host`trace, host`faults, host`said
      ensures Underway(host, c)
      ensures ReloadPhases(host.trace) <= {Forward}
      ensures e.None? ==> ReloadPhases(host.trace) == {Forward}
      ensures e.Some? ==> Operational(e.value) && NotGenerated(host.generates, plan, c.target, e.value)
      ensures Distinct(installed) && Replacing(c, installed, host.store)
      ensures FirstNames(plan.resources, installed)
      ensures Services(installed) <= Concerned(c) && UnitSet(started) <= Services(installed)
      ensures SameBut(c.start.running, host.running, UnitSet(started))
      ensures e.None? ==> installed == Names(plan.resources) && host.store == c.target
      ensures e.None? ==> InService(host.generates, c, plan, host.Now())
      ensures e.None? ==> Captured(host.generates, resources, plan.resources, host.store)
      ensures host.faults >= old(host.faults)
      ensures e.Some? && PlanFits(host.generates, c.start.store, plan, {}) ==> host.faults > old(host.faults)
      ensures WentUpTo(LogOf(old(host.trace)), LogOf(host.trace), Script(plan, [], []), e)
      ensures host.said == old(host.said) + Voiced(e)
    {
      hide *;
      StandsAt(host, c.start);
      resources, started := map[], [];
      OfferedAll(c, plan.resources);
      ghost var log := LogOf(host.trace);
      installed, e := InstallSources(host, c, plan.resources);
      AddingToStart(host.generates, c, plan, installed, host.store);
      NoneTouched(installed, host.running);
      if e.Some? {
        RefusalIsOperational(host.generates, plan, c.target, e.value);
        InstallScriptBegun(log, LogOf(host.trace), plan, |installed| + 1, e);
        return;
      }
      ghost var placed := LogOf(host.trace);
      started, resources, e := ServeInstalled(c, plan, installed);
      InstallScriptServed(log, placed, LogOf(host.trace), plan, e);
    }

    // Its second half, once the sources are in place.
    method ServeInstalled(ghost c: Context, plan: Plan, ghost installed: seq<string>)
      returns (ghost started: seq<Unit>, resources: map<string, ResourceState>, e: Option<Error>)
      requires Underway(host, c) && host.phase.Forward? && Forward !in ReloadPhases(host.trace)
      requires c.mine == {} && plan.operation.Install? && c.offers == Offers(plan.resources)
      requires host.store == c.target && host.running == c.start.running
      requires installed == Names(plan.resources) && Replacing(c, installed, host.store)
      modifies host`loaded, host`running, host`trace, host`faults, host`said
      ensures Underway(host, c)
      ensures ReloadPhases(host.trace) == ReloadPhases(old(host.trace)) + {Forward}
      ensures e.Some? ==> Operational(e.value) && NotGenerated(host.generates, plan, c.target, e.value)
      ensures UnitSet(started) <= Services(installed)
      ensures SameBut(c.start.running, host.running, UnitSet(started))
      ensures e.None? ==> InService(host.generates, c, plan, host.Now())
      ensures e.None? ==> Captured(host.generates, resources, plan.resources, host.store)
      ensures host.faults >= old(host.faults)
      ensures e.Some? && AllGenerate(host.generates, plan.resources, host.store) ==> host.faults > old(host.faults)
      ensures WentUpTo(LogOf(old(host.trace)), LogOf(host.trace), ServingCalls(plan.resources, false), e)
      ensures host.said == old(host.said) + Voiced(e)
    {
      hide *;
      PlanUnits(plan.resources, c);
      InstalledUnits(c, plan.resources, |plan.resources|);
      assert plan.resources[..|plan.resources|] == plan.resources;
      ReplacedIsReachable(c, installed, host.store);
      ghost var log := LogOf(host.trace);
      var tried, captured, failure := Serve(host, c, plan.resources, false);
      started, resources, e := tried, captured, failure;
      ServingScript(host.generates, host.store, plan.resources, started, e, log, LogOf(host.trace));
      ServedNames(host.generates, host.store, plan, started, e);
      WantedOnly(host, c, plan.resources, installed, started);
      if e.None? {
        InstallServed(host, c, plan, started);
      }
    }

    // Everything an install does before it saves the record.
    method Deploy(ghost c: Context, plan: Plan) returns (resources: map<string, ResourceState>, e: Option<Error>)
      requires Begins(host, c, plan) && plan.operation.Install?
      modifies host`store, host`loaded, host`running, host`trace, host`faults, host`said, host`phase
      ensures e.Some? ==> Settled(host, c, plan, e) && ServiceOutcome(host, c, plan, e) && !Through(e)
      ensures e.None? ==> Underway(host, c) && host.phase.Forward?
      ensures e.None? ==> ReloadPhases(host.trace) == {Forward}
      ensures e.None? ==> Distinct(Names(plan.resources)) && Replacing(c, Names(plan.resources), host.store)
      ensures e.None? ==> host.store == c.target && InService(host.generates, c, plan, host.Now())
      ensures e.None? ==> Captured(host.generates, resources, plan.resources, host.store)
      ensures host.faults >= old(host.faults)
      ensures e.Some? && e.value.RollbackFailed? ==>
        host.faults >= old(host.faults) + if PlanFits(host.generates, c.start.store, plan, {}) then 2 else 1
      ensures e.Some? && PlanFits(host.generates, c.start.store, plan, {}) ==> host.faults > old(host.faults)
      ensures e.None? ==> Went(NoCalls, LogOf(host.trace), Script(plan, [], []), None)
      ensures e.Some? ==> WentSome(NoCalls, LogOf(host.trace), Script(plan, [], []), Cause(e)) && !Refused(e.value)
      ensures e.Some? ==> NotGenerated(host.generates, plan, c.target, CauseOf(e.value))
      ensures host.said == old(host.said) + Told(e)
    {
      hide LogOf, Went, WentSome, WentBack, WentUpTo, Script, Told, Cause, CauseOf, NotGenerated, RemovalsLastFirst;
      hide During;
      hide Underway, StopsOk, RollbackSourcesOk, ReloadPhases, PlanFits, Captured, Controlled, Replacing;
      hide Distinct, InService, SourceMap, ServiceOutcome, Settled, RolledBack, SameBut, Services, UnitSet;
      hide Concerned;
      BeginsUnderway(host, c, plan);
      var installed;
      ghost var started;
      installed, started, resources, e := InstallAndServe(c, plan);
      ToldPlainly(e);
      if e.Some? {
        ghost var failed := LogOf(host.trace);
        var r := RollbackInstall(c, installed, started, e.value);
        InstallUndone(host, c, plan, |installed|, e.value, r);
        CauseTold(host, c, e.value, r, false);
        UpToAndBack(
          NoCalls, failed, LogOf(host.trace), RemovalsLastFirst(installed, true) + [Reload], Script(plan, [], []), e);
        e := Some(r);
      } else {
        UpToTheEnd(NoCalls, LogOf(host.trace), Script(plan, [], []));
      }
    }

    method Upsert(ghost c: Context, plan: Plan) returns (e: Option<Error>)
      requires Begins(host, c, plan) && host.said == [] && (plan.operation.Install? || plan.operation.Update?)
      requires Reachable(host.store, c.own) && host.kernel.Valid()
      requires plan.operation.Update? ==> plan.instanceId in host.records
      modifies host`store, host`loaded, host`running, host`records, host`docs, host`trace, host`faults, host`said,
        host`phase, host`clock, host.kernel
      ensures Settled(host, c, plan, e)
      ensures ServiceOutcome(host, c, plan, e)
      ensures FaultBound(
        host, c, plan, e, old(host.faults), old(Unblocked(roots, plan, host.kernel.tree, host.kernel.anchors)))
      ensures Documented(c, plan, e, host.records, old(host.docs), host.docs)
      ensures Laid(
        roots, plan, Through(e) || host.trace != [], host.kernel.anchors, old(host.kernel.tree), host.kernel.tree)
      ensures host.kernel.Valid() && host.kernel.open == old(host.kernel.open)
      ensures Explained(host, c.start.records, plan, c.target, e)
      ensures host.clock >= old(host.clock) && Dated(c.id, plan, e, host.records, old(host.clock), host.clock)
    {
      hide LogOf, Explained;
      hide Underway, StopsOk, RollbackSourcesOk, ReloadPhases, Settled, ServiceOutcome, Controlled, PlanFits, UnitsOf;
      hide ClientAccepts, Offers, MadeSome, AllStand, Keeps, WaysClear, Reachable;
      e := MakeDirectories(host, roots, plan.directories);
      if e.Some? {
        NothingDone(host, c, plan, e.value);
        NothingCalled(host, c.start.records, plan, c.target, e.value);
        return;
      }
      e := UpsertSources(c, plan);
    }

    // What follows the directories: read what there is, and replace or install.
    method UpsertSources(ghost c: Context, plan: Plan) returns (e: Option<Error>)
      requires Begins(host, c, plan) && host.said == [] && (plan.operation.Install? || plan.operation.Update?)
      requires Reachable(host.store, c.own) && (plan.operation.Update? ==> plan.instanceId in host.records)
      modifies host`store, host`loaded, host`running, host`records, host`docs, host`trace, host`faults, host`said,
        host`phase, host`clock
      ensures Settled(host, c, plan, e)
      ensures ServiceOutcome(host, c, plan, e)
      ensures FaultBound(host, c, plan, e, old(host.faults), true)
      ensures Documented(c, plan, e, host.records, old(host.docs), host.docs)
      ensures Explained(host, c.start.records, plan, c.target, e)
      ensures host.clock >= old(host.clock) && Dated(c.id, plan, e, host.records, old(host.clock), host.clock)
    {
      hide LogOf, Explained;
      hide Underway, StopsOk, RollbackSourcesOk, ReloadPhases, Settled, ServiceOutcome, Controlled, PlanFits, UnitsOf;
      hide IsSnapshot, ClientAccepts, Offers, Reachable;
      if plan.operation.Install? {
        e := Install(c, plan);
        return;
      }
      var record, snapshot;
      e, record, snapshot := Recall(c, plan);
      if e.Some? {
        return;
      }
      e := Update(c, plan, record, snapshot);
    }

    // A failed read counts as a missing source: `missed` are the live ones whose read failed.
    method DetectDrift(record: Instance) returns (drift: seq<Drift>, ghost missed: set<string>)
      modifies host`faults, host`said
      ensures Reported(record, host.store, missed, drift)
      ensures drift == [] ==> DriftFree(record, host.store)
      ensures host.faults == old(host.faults) ==> (drift == [] <==> DriftFree(record, host.store))
      ensures host.faults >= old(host.faults) && (host.faults == old(host.faults) ==> missed == {})
    {
      hide Ascending, ClientAccepts, Cut, Reported, DriftFree, DriftAlong, Distinct;
      var names := SortedKeys(record.resources.Keys);
      ListingIsDistinct(names, record.resources.Keys);
      drift, missed := [], {};
      NoNamesNoDrift(record, host.store);
      for i := 0 to |names|
        invariant host.faults >= old(host.faults) && (host.faults == old(host.faults) ==> missed == {})
        invariant FoundAlong(record, host.store, missed, names, i, drift)
      {
        assert names[i] in names;
        var want := record.resources[names[i]].sha;
        ghost var before, sofar := host.faults, drift;
        var e, source := host.GetQuadlet(names[i]);
        ghost var unread := if host.faults > before then {names[i]} else {};
        var got: Digest := if e.None? then Sha256(source) else Missing;
        if got != want {
          drift := drift + [Drift(names[i], want, got)];
        }
        FoundOneMore(record, host.store, missed, unread, names, i, sofar, got);
        missed := missed + unread;
      }
      assert names[..|names|] == names;
      DriftIsReported(record, host.store, missed, names, drift);
    }

    // What ExecutePlan checks before it lets a plan run: expiry, digest, drift seen at
    // planning time, and drift seen now.
    method Refusal(plan: Plan) returns (e: Option<Error>)
      modifies host`faults, host`said, host`clock
      ensures e.None? ==> Current(plan, old(host.clock))
      ensures e.None? ==> LetThrough(plan, host.records, host.store)
      ensures e.Some? ==>
        CalledFor(plan, host.records, host.store, e.value, host.clock, host.faults > old(host.faults))
      ensures e.Some? && !Refused(e.value) ==> host.said == old(host.said) + [e.value]
      ensures host.faults >= old(host.faults) && host.clock >= old(host.clock)
      ensures host.faults == old(host.faults) ==>
        (e.None? <==> Current(plan, host.clock) && LetThrough(plan, host.records, host.store))
    {
      var now := host.Clock();
      if now > plan.expiresAt {
        return Some(PlanExpired);
      }
      if plan.digest != PlanDigestOf(plan) {
        return Some(DigestMismatch);
      }
      if plan.drift != [] {
        return Some(DriftDetected(plan.drift));
      }
      if !plan.operation.Install? {
        var found;
        e, found := host.GetInstance(plan.instanceId);
        if e.Some? {
          return;
        }
        var drift;
        ghost var missed;
        drift, missed := DetectDrift(found.value);
        if drift != [] {
          return Some(DriftDetected(drift));
        }
      }
      e := None;
    }

    // Run a plan that was let through.
    method Dispatch(ghost c: Context, plan: Plan) returns (e: Option<Error>)
      requires Begins(host, c, plan) && host.said == [] && host.kernel.Valid()
      requires LetThrough(plan, host.records, host.store)
      modifies host`store, host`loaded, host`running, host`records, host`docs, host`trace, host`faults, host`said,
        host`phase, host`clock, host.kernel
      ensures Settled(host, c, plan, e) && ServiceOutcome(host, c, plan, e)
      ensures FaultBound(
        host, c, plan, e, old(host.faults), old(Unblocked(roots, plan, host.kernel.tree, host.kernel.anchors)))
      ensures Documented(c, plan, e, host.records, old(host.docs), host.docs)
      ensures Laid(
        roots, plan, Through(e) || host.trace != [], host.kernel.anchors, old(host.kernel.tree), host.kernel.tree)
      ensures host.kernel.Valid() && host.kernel.open == old(host.kernel.open)
      ensures Explained(host, c.start.records, plan, c.target, e)
      ensures host.clock >= old(host.clock) && Dated(c.id, plan, e, host.records, old(host.clock), host.clock)
    {
      hide Underway, StopsOk, RollbackSourcesOk, ReloadPhases, Controlled, PlanFits, Settled, UnitsOf, Offers;
      hide LogOf, ServiceOutcome, Keeps, MadeSome, AllStand, ClientAccepts, Cut;
      KeepsItself(host.kernel.tree);
      match plan.operation {
        case Remove => e := Remove(c, plan);
        case Other(_) =>
          NothingToDo(host, c, plan);
          e := None;
        case _ => e := Upsert(c, plan);
      }
    }

    // Execute a stored plan as the transaction ContextOf describes. It is refused, if nothing
    // goes wrong, exactly when it is not current or its baselines do not match.
    method ExecutePlan(id: string) returns (e: Option<Error>)
      requires host.kernel.Valid()
      modifies host`store, host`loaded, host`running, host`records, host`plans, host`docs, host`trace, host`faults,
        host`said, host`phase, host`clock, host.kernel
      ensures host.kernel.Valid() && host.kernel.open == old(host.kernel.open)
      ensures host.clock >= old(host.clock)
      ensures id !in old(host.plans) ==>
        && (e == Some(NotFound) || (e == Some(StateUnreadable) && host.faults > old(host.faults)))
        && host.trace == [] && host.Now() == old(host.Now()) && host.kernel.tree == old(host.kernel.tree)
        && host.docs == old(host.docs)
      ensures id in old(host.plans) ==>
        && Carried(host, roots, old(OutsetOf(host)), old(host.plans)[id], e)
        && Bounded(host, roots, old(OutsetOf(host)), old(host.plans)[id], e)
      ensures e.Some? ==> host.plans == old(host.plans)
      ensures e.None? && host.faults == old(host.faults) ==> host.plans == old(host.plans) - {old(host.plans)[id].id}
      ensures e.None? ==> host.plans == old(host.plans) || host.plans == old(host.plans) - {old(host.plans)[id].id}
    {
      hide *;
      ghost var o := OutsetOf(host);
      OutsetIs(host, o);
      host.trace, host.phase, host.said := [], Forward, [];
      var found;
      e, found := host.GetPlan(id);
      ToldPlainly(e);
      if e.Some? {
        if id in host.plans {
          UnreadPlan(host, roots, o, host.plans[id], e.value);
        }
        return;
      }
      var plan := found.value;
      BeginsNow(host, plan);
      e := RunOnce(o, plan);
    }

    // Run a plan, and forget it if that went well.
    method RunOnce(ghost o: Outset, plan: Plan) returns (e: Option<Error>)
      requires Begins(host, ContextOf(host.generates, o.view, plan), plan) && host.kernel.Valid()
      requires host.docs == o.docs && host.kernel.tree == o.tree && host.clock == o.clock && host.faults == o.faults
      requires host.said == []
      modifies host`store, host`loaded, host`running, host`records, host`plans, host`docs, host`trace, host`faults,
        host`said, host`phase, host`clock, host.kernel
      ensures Carried(host, roots, o, plan, e) && Bounded(host, roots, o, plan, e)
      ensures host.kernel.Valid() && host.kernel.open == old(host.kernel.open)
      ensures host.clock >= o.clock
      ensures e.Some? ==> host.plans == old(host.plans)
      ensures e.None? && host.faults == o.faults ==> host.plans == old(host.plans) - {plan.id}
      ensures e.None? ==> host.plans == old(host.plans) || host.plans == old(host.plans) - {plan.id}
    {
      hide *;
      e := RunPlan(o, plan);
      if e.None? {
        host.DeletePlan(plan.id);
        SuccessIsBound(host, roots, o, plan);
      }
    }

    method RunPlan(ghost o: Outset, plan: Plan) returns (e: Option<Error>)
      requires Begins(host, ContextOf(host.generates, o.view, plan), plan) && host.kernel.Valid()
      requires host.docs == o.docs && host.kernel.tree == o.tree && host.clock == o.clock && host.faults == o.faults
      requires host.said == []
      modifies host`store, host`loaded, host`running, host`records, host`docs, host`trace, host`faults, host`said,
        host`phase, host`clock, host.kernel
      ensures Carried(host, roots, o, plan, e) && Bounded(host, roots, o, plan, e)
      ensures host.faults >= o.faults && host.clock >= o.clock
      ensures host.kernel.Valid() && host.kernel.open == old(host.kernel.open)
    {
      hide Good, Linked, StopsOk, RollbackSourcesOk, ReloadPhases, Controlled, PlanFits, UnitsOf, ServiceOutcome;
      hide Keeps, MadeSome, AllStand, ClientAccepts, Cut, TargetStore, Offers, Documented, Laid, DriftFree;
      hide Followed, Told, NotGenerated, CalledFor, LogOf, Lists;
      ghost var c := ContextOf(host.generates, o.view, plan);
      e := Refusal(plan);
      if e.Some? {
        RefusedAtOnce(host, roots, o, plan, e.value);
        return;
      }
      host.said := [];
      e := Dispatch(c, plan);
    }

    // One lifecycle call on one unit.
    method Operate(u: Unit, action: Action) returns (e: Option<Error>)
      modifies host`running, host`trace, host`faults, host`said
      ensures SameElsewhere(old(host.running), host.running, u)
      ensures u in host.running ==> SameAt(old(host.running), host.running, u) || host.UpToDate(u)
      ensures Heeded(action, old(host.running), host.running)
      ensures e.None? && action.StopAll? ==> u !in host.running
      ensures CalledInTurn(old(host.trace), host.trace, [u], action, e)
      ensures host.faults >= old(host.faults)
      ensures e.None? && host.faults == old(host.faults) ==> Operated(host, u, action)
      ensures e.Some? && host.CanRun(u) && !action.OtherAction? ==> host.faults > old(host.faults)
    {
      match action {
        case StartAll => e := host.Start(u);
        case StopAll => e := host.Stop(u);
        case RestartAll => e := host.Restart(u);
        case OtherAction(_) => e := Some(UNSUPPORTED);
      }
    }

    // Operate these units, in order, up to the first failure.
    method OperateAll(units: seq<Unit>, action: Action) returns (e: Option<Error>)
      modifies host`running, host`trace, host`faults, host`said
      ensures SameBut(old(host.running), host.running, UnitSet(units))
      ensures forall u :: u in host.running ==> SameAt(old(host.running), host.running, u) || host.UpToDate(u)
      ensures Heeded(action, old(host.running), host.running)
      ensures e.None? && action.StopAll? ==> AllDown(UnitSet(units), host.running)
      ensures CalledInTurn(old(host.trace), host.trace, units, action, e)
      ensures host.faults >= old(host.faults)
      ensures e.None? && host.faults == old(host.faults) ==> forall u :: u in units ==> Operated(host, u, action)
      ensures e.Some? && !action.OtherAction? && (forall u :: u in units ==> host.CanRun(u)) ==>
        host.faults > old(host.faults)
    {
      hide Runnable, CalledInTurn, Heeded;
      NothingCalledYet(host.trace, units, action, host.running);
      for i := 0 to |units|
        invariant SameBut(old(host.running), host.running, UnitSet(units))
        invariant forall u :: u in host.running ==> SameAt(old(host.running), host.running, u) || host.UpToDate(u)
        invariant Heeded(action, old(host.running), host.running)
        invariant action.StopAll? ==> forall j :: 0 <= j < i ==> units[j] !in host.running
        invariant CalledInTurn(old(host.trace), host.trace, units[..i], action, None)
        invariant host.faults == old(host.faults) ==> forall j :: 0 <= j < i ==> Operated(host, units[j], action)
        invariant host.faults >= old(host.faults)
      {
        assert units[i] in units;
        ghost var called, mid := host.trace, host.running;
        e := Operate(units[i], action);
        CalledOneMore(old(host.trace), called, host.trace, units, i, action, e);
        HeededOneMore(action, old(host.running), mid, host.running);
        if e.Some? {
          return;
        }
      }
      assert units[..|units|] == units;
      e := None;
    }

    // Start, stop or restart every unit of an active instance, in order, up to the first
    // failure. Only the record's own units are touched. Without faults, it succeeds exactly
    // when the instance is active and the action known, as long as systemd can run its units;
    // and then every one of them is up, down, or up on the loaded definition.
    method Lifecycle(id: string, action: Action) returns (e: Option<Error>)
      modifies host`running, host`trace, host`faults, host`said
      ensures SameBut(old(host.running), host.running, UnitsUnder(host.records, id))
      ensures forall u :: u in host.running ==> SameAt(old(host.running), host.running, u) || host.UpToDate(u)
      ensures Heeded(action, old(host.running), host.running)
      ensures ServedInTurn(
        host.fileName, host.records, id, old(host.trace), host.trace, action, e, host.faults > old(host.faults))
      ensures id !in host.records || host.records[id].removedAt.Some? ==> host.running == old(host.running)
      ensures e.None? && action.StopAll? ==> AllDown(UnitsUnder(host.records, id), host.running)
      ensures e.None? && host.faults == old(host.faults) ==>
        forall u :: u in UnitsUnder(host.records, id) ==> Operated(host, u, action)
      ensures host.faults >= old(host.faults)
      ensures host.faults == old(host.faults) && (forall u :: u in UnitsUnder(host.records, id) ==> host.CanRun(u)) ==>
        (e.None? <==>
          && id in host.records && host.records[id].removedAt.None?
          && (action.OtherAction? ==> UnitsUnder(host.records, id) == {}))
    {
      hide Runnable, ListsUnits, Operated, Fresh, CalledInTurn;
      var found;
      e, found := host.GetInstance(id);
      if e.Some? {
        return;
      }
      if found.value.removedAt.Some? {
        return Some(REMOVED);
      }
      var units := SortedUnits(host.fileName, found.value.resources);
      UnitsUnderAre(host.records, id, units, host.fileName);
      assert forall u :: u in units <==> u in UnitsUnder(host.records, id);
      assert units == [] || units[0] in UnitsUnder(host.records, id);
      hide UnitsUnder, SameBut, AllDown, UnitSet, Heeded;
      e := OperateAll(units, action);
      UnknownIsRefused(old(host.trace), host.trace, units, action, e);
    }
  }

  const REMOVED := RequestRefused("instance is removed")
  const UNSUPPORTED := RequestRefused("unsupported lifecycle action")

  // Starting leaves every running unit alone, and stopping brings none up.
  ghost predicate Heeded(action: Action, before: map<Unit, string>, after: map<Unit, string>) {
    && (action.StartAll? ==> KeptUp(before, after))
    && (action.StopAll? ==> KeptUp(after, before))
    && (action.OtherAction? ==> after == before)
  }

  function CallFor(action: Action, u: Unit): Call {
    match action
    case StopAll => StopUnit(u)
    case RestartAll => RestartUnit(u)
    case _ => StartUnit(u)
  }

  // The first of these units have each been operated once, in order, and nothing else was
  // called: all of them, or those up to the one whose call failed, which e reports. An unknown
  // action calls nothing, and is refused once there is a unit.
  ghost predicate CalledInTurn(
    before: seq<Step>, after: seq<Step>, units: seq<Unit>, action: Action, e: Option<Error>)
  {
    if action.OtherAction? then after == before && e == if units == [] then None else Some(UNSUPPORTED)
    else
      && |before| <= |after| <= |before| + |units| && after[..|before|] == before
      && (forall i :: |before| <= i < |after| ==>
            && after[i].call == CallFor(action, units[i - |before|])
            && (after[i].ok || (e.Some? && i == |after| - 1)))
      && (if e.None? then |after| == |before| + |units|
          else
            |after| > |before| && e == Some(UnitFailed(units[|after| - 1 - |before|])) && !after[|after| - 1].ok)
  }

  lemma NothingCalledYet(tr: seq<Step>, units: seq<Unit>, action: Action, running: map<Unit, string>)
    ensures units[..0] == [] && CalledInTurn(tr, tr, [], action, None) && Heeded(action, running, running)
  {
  }

  lemma CalledOneMore(
    before: seq<Step>, mid: seq<Step>, after: seq<Step>, units: seq<Unit>, i: nat, action: Action, e: Option<Error>)
    requires i < |units|
    requires CalledInTurn(before, mid, units[..i], action, None) && CalledInTurn(mid, after, [units[i]], action, e)
    ensures CalledInTurn(before, after, units[..i + 1], action, e)
    ensures e.Some? ==> CalledInTurn(before, after, units, action, e)
  {
    assert after[..|mid|] == mid;
  }

  lemma HeededOneMore(action: Action, before: map<Unit, string>, mid: map<Unit, string>, after: map<Unit, string>)
    requires Heeded(action, before, mid) && Heeded(action, mid, after)
    ensures Heeded(action, before, after)
  {
  }

  lemma UnknownIsRefused(before: seq<Step>, after: seq<Step>, units: seq<Unit>, action: Action, e: Option<Error>)
    requires CalledInTurn(before, after, units, action, e)
    ensures action.OtherAction? ==> (e.None? <==> units == [])
  {
  }

  // What a lifecycle request calls and reports, by what there is under the id.
  ghost predicate ServedInTurn(
    fileName: string -> string, records: map<string, Instance>, id: string, before: seq<Step>, after: seq<Step>,
    action: Action, e: Option<Error>, troubled: bool)
  {
    || (troubled && e == Some(StateUnreadable) && after == before)
    || (if id !in records then e == Some(NotFound) && after == before
        else if records[id].removedAt.Some? then e == Some(REMOVED) && after == before
        else exists units ::
          ListsUnits(fileName, records[id].resources, units) && CalledInTurn(before, after, units, action, e))
  }

  // The unit is where the action wanted it.
  ghost predicate Operated(host: Host, u: Unit, action: Action)
    reads host`running, host`loaded
  {
    match action
    case StartAll => u in host.running
    case StopAll => u !in host.running
    case RestartAll => host.UpToDate(u)
    case OtherAction(_) => false
  }

  datatype Action = StartAll | StopAll | RestartAll | OtherAction(text: string)

  // The units of the record stored under id.
  function UnitsUnder(records: map<string, Instance>, id: string): set<Unit> {
    if id in records then UnitsOf(records[id].resources) else {}
  }

  // ---- what an execution reports ----

  lemma {:induction false} RefusedCallIsNoted(tr: seq<Step>, k: nat)
    requires k < |tr| && tr[k].phase.Forward? && !tr[k].ok
    ensures tr[k].call in LogOf(tr).refused
  {
    if k < |tr| - 1 {
      RefusedCallIsNoted(tr[..|tr| - 1], k);
    }
  }

  // The failed call that an execution began to give up for is the cause it reports, bare or
  // marked; a success has had no failed call; and what it reports of a rollback are the errors
  // reported there, all of them and in order.
  lemma FailureIsTheCause(host: Host, roots: map<string, Root>, o: Outset, plan: Plan, e: Option<Error>, k: nat)
    requires Carried(host, roots, o, plan, e)
    requires k < |host.trace| && host.trace[k].phase.Forward? && !host.trace[k].ok
    ensures Cause(e) == Some(ErrorOf(host.trace[k].call)) && host.said == Told(e)
  {
    hide *;
    RefusedCallIsNoted(host.trace, k);
    CarriedIsExplained(host, roots, o, plan, e);
    RefusedIsTheCause(host.fileName, o.view.records, plan, LogOf(host.trace), e, host.trace[k].call);
  }

  lemma CarriedIsExplained(host: Host, roots: map<string, Root>, o: Outset, plan: Plan, e: Option<Error>)
    requires Carried(host, roots, o, plan, e) && host.trace != []
    ensures Followed(host.fileName, o.view.records, plan, LogOf(host.trace), e) && host.said == Told(e)
  {
    hide Settled, Executed, ServiceOutcome, Documented, Laid, Dated, Followed, ContextOf, LetThrough, Current;
    hide NotGenerated, LogOf, Told;
  }

  lemma RefusedIsTheCause(
    fileName: string -> string, records: map<string, Instance>, plan: Plan, log: Log, e: Option<Error>, call: Call)
    requires Followed(fileName, records, plan, log, e) && call in log.refused
    ensures Cause(e) == Some(ErrorOf(call)) && !plan.operation.Other?
  {
    hide Script, ListsUnits, Lists, ResourcesUnder;
    if plan.operation.Update? || plan.operation.Remove? {
      var units, names :| Goes(log, Script(plan, units, names), e);
      GoneWrong(log, Script(plan, units, names), e, call);
    } else if plan.operation.Install? {
      GoneWrong(log, Script(plan, [], []), e, call);
    }
  }

  lemma GoneWrong(log: Log, script: seq<Call>, e: Option<Error>, call: Call)
    requires Goes(log, script, e) && call in log.refused
    ensures Cause(e) == Some(ErrorOf(call))
  {
  }

  // ---- what an execution does to service when it rolls back ----

  lemma LetThroughWorksOn(generates: (string, string) -> bool, start: View, plan: Plan)
    requires plan.operation.Update? || plan.operation.Remove?
    requires LetThrough(plan, start.records, start.store)
    ensures WorksOn(generates, ContextOf(generates, start, plan), start.records[plan.instanceId])
  {
    hide Controlled, TargetStore, Cut, ClientAccepts;
  }

  // An update or remove of units under control that failed and was rolled back cleanly has
  // given service back as it was exactly when every unit on the record had been running its
  // source; and the store, to the letter, as long as those sources are within the client's
  // limit.
  lemma RolledBackServiceIff(host: Host, start: View, plan: Plan, e: Option<Error>)
    requires plan.operation.Update? || plan.operation.Remove?
    requires LetThrough(plan, start.records, start.store)
    requires var c := ContextOf(host.generates, start, plan);
      && Settled(host, c, plan, e) && ServiceOutcome(host, c, plan, e) && c.controlled
      && !Through(e) && !IsRollbackFailure(e) && host.phase.Rollback?
      && Short(start.store, c.own)
    ensures host.store == start.store == host.loaded
    ensures host.running == start.running <==>
      AllRunning(UnitsUnder(start.records, plan.instanceId), start.store, start.running)
  {
    var c := ContextOf(host.generates, start, plan);
    LetThroughWorksOn(host.generates, start, plan);
    RereadIsWholeIffShort(start.store, c.own);
    StartOf(host.generates, start, plan);
    FailedIsReturned(host, c, plan, e);
    hide ContextOf, Good, Linked, Between, Finished, Controlled, ReloadPhases;
    hide RollbackSourcesOk, Reread, Short, UnitsOf;
    ServiceIsBackIffItWasUp(host.generates, c, start.records[plan.instanceId], host.Now());
  }

  lemma StartOf(generates: (string, string) -> bool, start: View, plan: Plan)
    requires plan.operation.Update? || plan.operation.Remove?
    ensures var c := ContextOf(generates, start, plan);
      && c.start == start && c.own == OwnNames(start.records, plan)
      && c.mine == UnitsUnder(start.records, plan.instanceId)
  {
    hide Controlled, TargetStore, UnitsOf;
  }

  lemma FailedIsReturned(host: Host, c: Context, plan: Plan, e: Option<Error>)
    requires Settled(host, c, plan, e) && !Through(e) && !IsRollbackFailure(e)
    ensures Returned(c.start.store, OwnNames(c.start.records, plan), host.store)
  {
  }

  // An update or remove that gave up without a rollback has changed no source, and has stopped
  // the first of the record's units, in order. So the units are as they were, however the stop
  // failed, exactly when none of them was running (StopFailureIsHarmlessIff).
  lemma GivenUpServiceIs(host: Host, start: View, plan: Plan, e: Option<Error>)
    requires plan.operation.Update? || plan.operation.Remove?
    requires var c := ContextOf(host.generates, start, plan);
      && Settled(host, c, plan, e) && ServiceOutcome(host, c, plan, e)
      && !Through(e) && host.phase.Forward?
    ensures host.store == start.store && host.loaded == start.loaded
    ensures StoppedInOrder(
      host.fileName, ResourcesUnder(start.records, plan.instanceId), start.running, host.running)
    ensures AllDown(UnitsOf(ResourcesUnder(start.records, plan.instanceId)), start.running) ==>
      host.running == start.running
  {
    StartOf(host.generates, start, plan);
    StopFailureIsHarmlessIff(host.fileName, ResourcesUnder(start.records, plan.instanceId), start.running);
    hide ContextOf, Settled, StoppedInOrder, BackInService, InService, BestEffort, ReloadPhases, UnitsOf;
  }
}

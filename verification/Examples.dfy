// Runs and journals in which the engine does less than one might expect: each shows that a
// condition stated elsewhere is needed.
module Examples {
  import opened QuadletNames
  import opened Model
  import opened Hosts
  import opened Journal
  import opened Moves
  import opened Engines
  import opened Planning
  import opened Ownership

  // ---- two installs planned before either runs ----

  // The units of a machine once those of these resources have been started.
  function Started(running: map<Unit, string>, rs: seq<Rendered>, store: map<string, string>): map<Unit, string> {
    map u | u in running.Keys + Wanted(rs) ::
      if u in running then running[u] else if u.Service? && u.name in store then store[u.name] else ""
  }

  // An install goes through on a machine where it fits.
  lemma RunInstall(generates: (string, string) -> bool, w: World, key: string) returns (post: World)
    requires key in w.plans && w.plans[key].operation.Install?
    requires PlanFits(generates, w.view.store, w.plans[key], {}) && Current(w.plans[key], w.clock)
    ensures Steps(generates, w, Ran(key, None), post) && post.plans == w.plans && post.clock == w.clock
    ensures Committed(generates, w.Books(), w.plans[key], post.Books())
    ensures post.view.store == w.view.store + SourceMap(w.plans[key].resources)
    ensures Active(post.view.records, w.plans[key].instanceId)
  {
    hide PlanFits, SourceMap, Placeable, Captured, InService, UnitsOf, Controlled, AllGenerate;
    var plan := w.plans[key];
    var after := FittingPlansCanCommit(generates, w.Books(), plan, w.clock);
    FitsAnEmptyRecord(generates, w.view.store, plan, 0);
    var v := View(after.store, after.store, Started(w.view.running, plan.resources, after.store), after.records);
    StartedIsInService(generates, ContextOf(generates, w.view, plan), plan, v);
    post := World(v, w.plans, w.clock);
    assert post.Books() == after;
  }

  lemma StartedIsInService(generates: (string, string) -> bool, c: Context, plan: Plan, v: View)
    requires plan.operation.Install? && c.mine == {} && c.offers == Offers(plan.resources)
    requires v.loaded == v.store && AllGenerate(generates, plan.resources, v.store)
    requires v.running == Started(c.start.running, plan.resources, v.store)
    ensures InService(generates, c, plan, v) && Untouched(c, v.running)
  {
    PlanUnits(plan.resources, c);
    forall u | u in Wanted(plan.resources)
      ensures Runnable(generates, v.loaded, u)
    {
      var r :| r in plan.resources && r.start && u == Service(r.name);
    }
    hide Concerned, Wanted, AllGenerate, Runnable;
  }

  // A plan made at its own date.
  lemma PlanNext(generates: (string, string) -> bool, ext: map<string, string>, w: World, plan: Plan)
    returns (post: World)
    requires BeginsOwned(generates, ext, w) && Sincere(plan) && w.clock <= plan.createdAt
    ensures post == w.(plans := w.plans[plan.id := plan], clock := plan.createdAt)
    ensures Steps(generates, w, Planned(plan), post) && BeginsOwned(generates, ext, post)
    ensures plan.digest == PlanDigestOf(plan) && plan.expiresAt == plan.createdAt + FIFTEEN_MINUTES
  {
    hide Owned;
    post := w.(plans := w.plans[plan.id := plan], clock := plan.createdAt);
  }

  // Two install plans for one instance, made before either runs and sharing no name, both go
  // through; the sources of the first then belong to no one.
  lemma TwoInstallsOrphan(generates: (string, string) -> bool, ext: map<string, string>, w: World, p: Plan, q: Plan)
    returns (worlds: seq<World>, acts: seq<Act>)
    requires BeginsOwned(generates, ext, w) && !Active(w.view.records, p.instanceId)
    requires Sincere(p) && Sincere(q) && p.operation.Install? && q.operation.Install?
    requires p.instanceId == q.instanceId && p.id != q.id && p.drift == q.drift == []
    requires w.clock <= p.createdAt <= q.createdAt <= p.createdAt + FIFTEEN_MINUTES
    requires PlanFits(generates, w.view.store, p, {})
    requires PlanFits(generates, w.view.store + SourceMap(p.resources), q, {})
    ensures IsRun(generates, worlds, acts) && |acts| == 4 && worlds[0] == w
    ensures acts == [Planned(p), Planned(q), Ran(p.id, None), Ran(q.id, None)]
    ensures Owned(generates, ext, worlds[3].Books()) && !Owned(generates, ext, worlds[4].Books())
  {
    hide Owned, Sincere, Committed, PlanFits, SourceMap, Steps;
    var w1 := PlanNext(generates, ext, w, p);
    var w2 := PlanNext(generates, ext, w1, q);
    var w3 := RunInstall(generates, w2, p.id);
    var w4 := RunInstall(generates, w3, q.id);
    InstallKeepsOwned(generates, ext, w2.Books(), p, w3.Books());
    InstallIsOwnedIffNotActive(generates, ext, w3.Books(), q, w4.Books());
    worlds, acts := [w, w1, w2, w3, w4], [Planned(p), Planned(q), Ran(p.id, None), Ran(q.id, None)];
  }

  function SourceText(text: string): string {
    Mark("a") + text
  }

  function PlanText(id: string, operation: Operation, name: string, text: string): Plan {
    var source := SourceText(text);
    var draft := Plan(
      id, NoDigest, operation, "app", "1", "a", map[], [],
      [Rendered(name, NoUnit, source, false, Sha256(source), None)], [], 0, FIFTEEN_MINUTES);
    draft.(digest := PlanDigestOf(draft))
  }

  lemma PlanTextFits(
    generates: (string, string) -> bool, store: map<string, string>, own: set<string>, id: string, operation: Operation,
    name: string, text: string)
    requires operation.Install? || operation.Update?
    requires ClientAccepts(name) && name !in store - own
    ensures var plan := PlanText(id, operation, name, text);
      && Sincere(plan) && Wanted(plan.resources) == {} && PlanFits(generates, store, plan, own)
      && SourceMap(plan.resources) == map[name := SourceText(text)]
  {
    hide ClientAccepts;
    var plan := PlanText(id, operation, name, text);
    assert plan.(digest := NoDigest).(digest := NoDigest) == plan.(digest := NoDigest);
    assert plan.resources[..0] == [];
    OneMore(plan.resources, 0);
    assert plan.resources[..1] == plan.resources;
  }

  lemma NamesAreAccepted()
    ensures ClientAccepts("a.container") && ClientAccepts("b.container")
  {
    ContainerIsAccepted('a');
    ContainerIsAccepted('b');
    assert "a.container" == ['a'] + ".container" && "b.container" == ['b'] + ".container";
    hide ClientAccepts;
  }

  lemma ContainerIsAccepted(c: char)
    requires 'a' <= c <= 'z'
    ensures ClientAccepts([c] + ".container")
  {
    assert HasSuffix([c] + ".container", EXTENSIONS[0]);
  }

  // Such plans exist: here on an empty machine.
  lemma TwoInstallsExample(generates: (string, string) -> bool) returns (worlds: seq<World>, acts: seq<Act>)
    ensures IsRun(generates, worlds, acts) && |acts| == 4
    ensures worlds[0] == World(View(map[], map[], map[], map[]), map[], 0)
    ensures forall i :: 0 <= i < 4 ==> Owned(generates, map[], worlds[i].Books())
    ensures !Owned(generates, map[], worlds[4].Books())
  {
    hide Owned, Sincere, PlanFits, SourceMap, Steps, PlanText, ClientAccepts;
    var w := World(View(map[], map[], map[], map[]), map[], 0);
    var p, q := PlanText("1", Install, "a.container", ""), PlanText("2", Install, "b.container", "");
    EmptyIsOwned(generates, map[]);
    NamesAreAccepted();
    PlanTextFits(generates, map[], {}, "1", Install, "a.container", "");
    PlanTextFits(generates, w.view.store + SourceMap(p.resources), {}, "2", Install, "b.container", "");
    PlanTextIs("1", Install, "a.container", "");
    PlanTextIs("2", Install, "b.container", "");
    worlds, acts := TwoInstallsOrphan(generates, map[], w, p, q);
    assert worlds[1].Books() == w.Books() && worlds[2].Books() == w.Books() by {
      PlanningKeepsBooks(generates, worlds[0], p, worlds[1]);
      PlanningKeepsBooks(generates, worlds[1], q, worlds[2]);
    }
  }

  lemma PlanTextIs(id: string, operation: Operation, name: string, text: string)
    ensures var plan := PlanText(id, operation, name, text);
      && plan.id == id && plan.operation == operation && plan.instanceId == "a"
      && plan.drift == [] && plan.createdAt == 0
  {
  }

  lemma PlanningKeepsBooks(generates: (string, string) -> bool, pre: World, plan: Plan, post: World)
    requires Steps(generates, pre, Planned(plan), post)
    ensures post.Books() == pre.Books()
  {
  }

  // ---- a save that fails ----

  lemma InstalledExample(generates: (string, string) -> bool) returns (pre: Ledger)
    ensures Owned(generates, map[], pre) && Active(pre.records, "a")
    ensures pre.store == map["a.container" := SourceText("1")]
    ensures pre.records["a"].resources.Keys == {"a.container"}
  {
    hide Owned, Sincere, PlanFits, SourceMap, PlanText, ClientAccepts, SourceText, Placeable;
    var first := PlanText("1", Install, "a.container", "1");
    EmptyIsOwned(generates, map[]);
    NamesAreAccepted();
    PlanTextFits(generates, map[], {}, "1", Install, "a.container", "1");
    PlanTextIs("1", Install, "a.container", "1");
    pre := FittingPlansCanCommit(generates, Ledger(map[], map[]), first, 0);
    InstallKeepsOwned(generates, map[], Ledger(map[], map[]), first, pre);
  }

  // The target of the update, and that its record cannot vouch for it.
  lemma UnsavedExample(generates: (string, string) -> bool, pre: Ledger) returns (plan: Plan, post: Ledger)
    requires Owned(generates, map[], pre) && Active(pre.records, "a")
    requires pre.store == map["a.container" := SourceText("1")]
    requires pre.records["a"].resources.Keys == {"a.container"}
    ensures Sincere(plan) && plan.operation.Update? && plan.instanceId == "a"
    ensures Executed(generates, pre, plan, Some(SaveFailed), post)
    ensures post.store == TargetStore(pre.store, plan, OwnNames(pre.records, plan))
    ensures post.store == map["a.container" := SourceText("2")]
  {
    hide Owned, Sincere, PlanFits, SourceMap, PlanText, ClientAccepts, DriftFree, SourceText, Placeable, Committed;
    plan := PlanText("2", Update, "a.container", "2");
    NamesAreAccepted();
    PlanTextIs("2", Update, "a.container", "2");
    ActiveHasNoDrift(generates, map[], pre, "a");
    var own := OwnNames(pre.records, plan);
    assert own == {"a.container"};
    PlanTextFits(generates, pre.store, own, "2", Update, "a.container", "2");
    FitsIsPlaceable(generates, pre.store, plan, own);
    post := Ledger(TargetStore(pre.store, plan, own), pre.records);
    assert pre.store - own == map[];
  }

  // After an install and an update whose record could not be saved, the instance is locked
  // out, and the invariant is lost.
  lemma SaveFailureExample(generates: (string, string) -> bool) returns (pre: Ledger, plan: Plan, post: Ledger)
    ensures Owned(generates, map[], pre) && Sincere(plan) && plan.operation.Update?
    ensures Executed(generates, pre, plan, Some(SaveFailed), post)
    ensures LockedOut(generates, post, plan.instanceId) && !Owned(generates, map[], post)
  {
    hide Owned, Sincere, Executed, LockedOut, SourceText, TargetStore, ClientAccepts, Cut;
    pre := InstalledExample(generates);
    plan, post := UnsavedExample(generates, pre);
    TextsDiffer();
    SaveFailureIsOwnedIff(generates, map[], pre, plan, post);
    SaveFailureLocksOut(generates, pre, plan, post);
    var n := "a.container";
    assert Cut(pre.store[n]) != Cut(post.store[n]);
    assert LiveDigest(pre.store, n) == pre.records["a"].resources[n].sha by {
      ActiveHasNoDrift(generates, map[], pre, "a");
      MatchAt(pre.records["a"], pre.store, n);
    }
  }

  lemma FitsIsPlaceable(generates: (string, string) -> bool, store: map<string, string>, plan: Plan, own: set<string>)
    requires PlanFits(generates, store, plan, own)
    ensures Placeable(store, plan, own)
  {
  }

  lemma TextsDiffer()
    ensures Cut(SourceText("1")) != Cut(SourceText("2"))
  {
    var k := |Mark("a")|;
    assert SourceText("1")[k] == '1' && SourceText("2")[k] == '2';
  }

  // ---- a rollback that starts a unit ----

  function RecordOf(name: string, source: string): Instance {
    Instance(
      "a", "app", "1", map[], map[name := ResourceState(name, Service(name), Sha256(source), source)], [], 0, 0, None,
      [Entry(0, Install)])
  }

  // An update of an instance with one resource, whose unit is stopped.
  lemma StoppedInstance(generates: (string, string) -> bool, name: string, source: string)
    returns (start: View, plan: Plan, c: Context)
    requires generates(name, source) && |source| <= READ_LIMIT && ClientAccepts(name)
    ensures "a" in start.records && c == ContextOf(generates, start, plan)
    ensures start == View(map[name := source], map[name := source], map[], start.records)
    ensures WorksOn(generates, c, start.records["a"]) && c.controlled
    ensures c.start == start && c.own == {name} && c.mine == {Service(name)}
    ensures LetThrough(plan, start.records, start.store)
  {
    hide ClientAccepts;
    var record := RecordOf(name, source);
    start := View(map[name := source], map[name := source], map[], map["a" := record]);
    plan := PlanText("1", Update, name, "");
    c := ContextOf(generates, start, plan);
    assert record.resources.Keys == {name} && record.resources[name].unit == Service(name);
  }

  // Its one source cannot be removed. The rollback is clean, the bare cause is returned, and
  // the unit is left running.
  lemma RollbackStartsAStoppedUnit(generates: (string, string) -> bool, name: string, source: string)
    returns (start: View, plan: Plan, tr: seq<Step>, now: View)
    requires generates(name, source) && |source| <= READ_LIMIT && ClientAccepts(name)
    ensures "a" in start.records && LetThrough(plan, start.records, start.store)
    ensures var c := ContextOf(generates, start, plan);
      && Good(c, tr) && Linked(generates, start, tr, now)
      && c.controlled && WorksOn(generates, c, start.records["a"])
      && BackInService(generates, c, now) && now.running != start.running
    ensures Executed(generates, Ledger(start.store, start.records), plan, Some(SourceRefused(name)),
      Ledger(now.store, now.records))
  {
    var c;
    start, plan, c := StoppedInstance(generates, name, source);
    now := start.(running := map[Service(name) := source]);
    UndoneIsExecuted(generates, start, plan, SourceRefused(name));
    StartedIsBack(generates, c, name, source, now);
    hide ContextOf, WorksOn, ClientAccepts, LetThrough, Executed, BackInService, Good, Linked;
    tr := StoppedJournal(generates, c, name, source, now);
  }

  lemma StartedIsBack(generates: (string, string) -> bool, c: Context, name: string, source: string, now: View)
    requires c.start.store == c.start.loaded == map[name := source] && c.start.running == map[]
    requires generates(name, source) && c.mine == {Service(name)}
    requires now == c.start.(running := map[Service(name) := source])
    ensures BackInService(generates, c, now) && now.running != c.start.running
  {
  }

  // A plan that was let through may end with any such error and nothing changed.
  lemma UndoneIsExecuted(generates: (string, string) -> bool, start: View, plan: Plan, e: Error)
    requires LetThrough(plan, start.records, start.store) && !Through(Some(e)) && !e.RollbackFailed?
    ensures var l := Ledger(start.store, start.records); Executed(generates, l, plan, Some(e), l)
  {
  }

  lemma StoppedJournal(generates: (string, string) -> bool, c: Context, name: string, source: string, now: View)
    returns (tr: seq<Step>)
    requires c.start.store == c.start.loaded == map[name := source] && c.start.running == map[]
    requires generates(name, source) && Service(name) in c.mine
    requires now == c.start.(running := map[Service(name) := source])
    ensures Good(c, tr) && Linked(generates, c.start, tr, now)
  {
    hide Good, Linked, Between, HonestRecords, RollbackSourcesOk, StopsOk;
    var u, start := Service(name), c.start;
    var stop := Step(StopUnit(u), true, Forward, start, start);
    var remove := Step(RemoveSource(name, false), false, Forward, start, start);
    var reload := Step(Reload, true, Rollback, start, start);
    var restart := Step(RestartUnit(u), true, Rollback, start, now);
    StartFits(c);
    SameLedger(c, now);
    assert u in Concerned(c) && Untouched(c, now.running);
    NothingYet(generates, c);
    hide Concerned, Untouched, ReloadPhases;
    GoodAndLinked(generates, c, [], stop);
    GoodAndLinked(generates, c, [] + [stop], remove);
    GoodAndLinked(generates, c, [] + [stop] + [remove], reload);
    GoodAndLinked(generates, c, [] + [stop] + [remove] + [reload], restart);
    tr := [] + [stop] + [remove] + [reload] + [restart];
  }

  lemma NothingYet(generates: (string, string) -> bool, c: Context)
    ensures Good(c, []) && Linked(generates, c.start, [], c.start) && ReloadPhases([]) == {}
  {
  }

  lemma SameLedger(c: Context, v: View)
    requires v.store == c.start.store && v.records == c.start.records
    ensures Between(c, v.store) && HonestRecords(c, v)
  {
    StartFits(c);
  }

  lemma GoodAndLinked(generates: (string, string) -> bool, c: Context, tr: seq<Step>, s: Step)
    requires Good(c, tr) && StepFits(c, tr, s)
    requires Linked(generates, c.start, tr, s.before) && Obeys(generates, s)
    ensures Good(c, tr + [s]) && Linked(generates, c.start, tr + [s], s.after)
    ensures ReloadPhases(tr + [s]) == ReloadPhases(tr) + if s.call.Reload? then {s.phase} else {}
  {
    hide StepFits, Obeys, StopsOk, RollbackSourcesOk;
    Extend(c, tr, s);
    LinkOne(generates, c.start, tr, s);
  }

  // ---- a stop that fails ----

  // The state after the first k units have been stopped, and a journal that leads there.
  lemma {:induction false} StopJournal(generates: (string, string) -> bool, c: Context, units: seq<Unit>, k: nat)
    returns (tr: seq<Step>, now: View)
    requires k <= |units| && forall u :: u in units <==> u in c.mine
    ensures Good(c, tr) && Linked(generates, c.start, tr, now)
    ensures now == c.start.(running := c.start.running - UnitSet(units[..k]))
  {
    if k == 0 {
      tr, now := [], c.start;
      NothingYet(generates, c);
      assert units[..0] == [];
    } else {
      var was;
      tr, was := StopJournal(generates, c, units, k - 1);
      assert units[..k] == units[..k - 1] + [units[k - 1]];
      tr, now := OneMoreStop(generates, c, tr, was, units[k - 1], true);
    }
  }

  // One more stop that takes effect, whether it reports so or not.
  lemma OneMoreStop(generates: (string, string) -> bool, c: Context, tr: seq<Step>, was: View, u: Unit, ok: bool)
    returns (more: seq<Step>, now: View)
    requires Good(c, tr) && Linked(generates, c.start, tr, was) && u in Concerned(c)
    requires was == c.start.(running := was.running) && Stopped(c.start.running, was.running, Concerned(c))
    ensures Good(c, more) && Linked(generates, c.start, more, now)
    ensures now == was.(running := was.running - {u}) && Stopped(c.start.running, now.running, Concerned(c))
  {
    hide Good, Linked, Between, HonestRecords, Concerned;
    now := was.(running := was.running - {u});
    SameLedger(c, now);
    GoodAndLinked(generates, c, tr, Step(StopUnit(u), ok, Forward, was, now));
    more := tr + [Step(StopUnit(u), ok, Forward, was, now)];
  }

  // For every update or remove that is let through with a unit on its record running there is
  // an execution in which a stop fails, nothing is rolled back, and that unit is left down.
  lemma FailedStopLeavesUnitsDown(
    generates: (string, string) -> bool, fileName: string -> string, start: View, plan: Plan, u: Unit)
    returns (tr: seq<Step>, now: View)
    requires plan.operation.Update? || plan.operation.Remove?
    requires LetThrough(plan, start.records, start.store)
    requires u in UnitsUnder(start.records, plan.instanceId) && u in start.running
    ensures var c := ContextOf(generates, start, plan);
      && Good(c, tr) && Linked(generates, start, tr, now) && OnlyStopped(c, now)
    ensures StoppedInOrder(
      fileName, ResourcesUnder(start.records, plan.instanceId), start.running, now.running)
    ensures u !in now.running
    ensures Executed(generates, Ledger(start.store, start.records), plan, Some(UnitFailed(u)),
      Ledger(now.store, now.records))
  {
    var c := ContextOf(generates, start, plan);
    StartOf(generates, start, plan);
    UndoneIsExecuted(generates, start, plan, UnitFailed(u));
    hide ContextOf, LetThrough, Executed, Good, Linked, UnitsOf, ListsUnits, OnlyStopped, StoppedInOrder, UnitSet;
    var m := ResourcesUnder(start.records, plan.instanceId);
    var units := SomeUnitList(fileName, m);
    ListsTheUnits(fileName, m, units);
    var k :| 0 <= k < |units| && units[k] == u;
    tr, now := StopFails(generates, c, units, k);
    StoppedSoFar(fileName, m, c, units, k + 1, now);
  }

  lemma ListsTheUnits(fileName: string -> string, m: map<string, ResourceState>, units: seq<Unit>)
    requires ListsUnits(fileName, m, units)
    ensures forall u :: u in units <==> u in UnitsOf(m)
  {
    assert forall u :: u in units <==> u in UnitSet(units);
  }

  // The first k units are stopped, and the stop of the next reports a failure.
  lemma StopFails(generates: (string, string) -> bool, c: Context, units: seq<Unit>, k: nat)
    returns (tr: seq<Step>, now: View)
    requires k < |units| && forall u :: u in units <==> u in c.mine
    ensures Good(c, tr) && Linked(generates, c.start, tr, now)
    ensures now == c.start.(running := c.start.running - UnitSet(units[..k + 1]))
  {
    hide Good, Linked;
    var was;
    tr, was := StopJournal(generates, c, units, k);
    assert units[..k + 1] == units[..k] + [units[k]];
    tr, now := OneMoreStop(generates, c, tr, was, units[k], false);
  }

  lemma StoppedSoFar(
    fileName: string -> string, m: map<string, ResourceState>, c: Context, units: seq<Unit>, k: nat, now: View)
    requires 0 < k <= |units| && ListsUnits(fileName, m, units) && forall u :: u in units <==> u in c.mine
    requires now == c.start.(running := c.start.running - UnitSet(units[..k]))
    ensures OnlyStopped(c, now) && StoppedInOrder(fileName, m, c.start.running, now.running)
    ensures units[k - 1] !in now.running
  {
    hide ListsUnits;
    assert units[k - 1] in units[..k];
    assert forall u :: u in UnitSet(units[..k]) ==> u in c.mine;
  }
}

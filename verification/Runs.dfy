// The agent at work: any list of requests, handled one after the other by the engine's own
// methods, is a run in the sense of Ownership.
module Runs {
  import opened Model
  import opened Paths
  import opened Hosts
  import opened Journal
  import opened Engines
  import opened Planning
  import opened Ownership
  import opened Service

  datatype Command =
    | Ask(request: Request)
    | Execute(planId: string)
    | Operate(instanceId: string, action: Action)

  ghost function WorldOf(host: Host): World
    reads host`store, host`loaded, host`running, host`records, host`plans, host`clock
  {
    World(host.Now(), host.plans, host.clock)
  }

  // What an execution promises, without its journal.
  lemma OutcomeIsStep(host: Host, roots: map<string, Root>, o: Outset, plan: Plan, e: Option<Error>)
    requires Carried(host, roots, o, plan, e)
    ensures var c := ContextOf(host.generates, o.view, plan);
      && Executed(host.generates, Ledger(o.view.store, o.view.records), plan, e, Ledger(host.store, host.records))
      && Served(host.generates, c, plan, e, host.Now()) && Untouched(c, host.running)
      && Dated(c.id, plan, e, host.records, o.clock, host.clock)
      && ((Current(plan, o.clock) && LetThrough(plan, o.view.records, o.view.store)) ||
            (e.Some? && host.Now() == o.view))
  {
    hide InService, BackInService, OnlyStopped, Finished, Good, Between, Returned, Laid, Documented, BestEffort;
    hide StoppedInOrder, DriftFree, Explained, Dated, Current;
  }

  // What the request asked for is what is answered, done and put on record.
  ghost predicate Answered(planner: Planner, r: Request, act: Act, e: Option<Error>, troubled: bool)
    reads planner.engine.host`records, planner.engine.host`podmanVersion
  {
    var records, podman := planner.engine.host.records, planner.engine.host.podmanVersion;
    && (if e.None? then act.Planned? && planner.Answers(act.plan, r, records) else act.Declined?)
    && (e.None? ==> planner.Admissible(r, records, podman))
    && (!troubled ==> (e.None? <==> planner.Admissible(r, records, podman) && planner.Plannable(r, records)))
  }

  // Each command is handled by its own method of the engine, and is one step of a run.
  method Handle(planner: Planner, command: Command) returns (e: Option<Error>, ghost act: Act)
    requires planner.Ready() && planner.engine.host.kernel.Valid()
    modifies planner.engine.host, planner.engine.host.kernel
    ensures planner.engine.host.kernel.Valid()
    ensures Steps(planner.engine.host.generates, old(WorldOf(planner.engine.host)), act, WorldOf(planner.engine.host))
    ensures planner.engine.host.podmanVersion == old(planner.engine.host.podmanVersion)
    ensures command.Ask? ==>
      Answered(planner, command.request, act, e, planner.engine.host.faults > old(planner.engine.host.faults))
    ensures command.Execute? ==> var host, roots := planner.engine.host, planner.engine.roots;
      if command.planId in old(host.plans) then
        && act == Ran(command.planId, e)
        && Carried(host, roots, old(OutsetOf(host)), old(host.plans)[command.planId], e)
        && Bounded(host, roots, old(OutsetOf(host)), old(host.plans)[command.planId], e)
      else act == Declined && e.Some?
    ensures command.Operate? ==> var host, id := planner.engine.host, command.instanceId;
      && act == Serviced(id)
      && Heeded(command.action, old(host.running), host.running)
      && ServedInTurn(
           host.fileName, host.records, id, old(host.trace), host.trace, command.action, e,
           host.faults > old(host.faults))
  {
    hide *;
    match command {
      case Ask(request) => e, act := Ask(planner, request);
      case Execute(planId) => e, act := Execute(planner, planId);
      case Operate(instanceId, action) => e, act := Operate(planner, instanceId, action);
    }
  }

  lemma AskIsAnswered(
    planner: Planner, r: Request, e: Option<Error>, plan: Option<Plan>, act: Act, troubled: bool)
    requires var records, podman := planner.engine.host.records, planner.engine.host.podmanVersion;
      && (e.None? ==> plan.Some? && planner.Answers(plan.value, r, records) && planner.Admissible(r, records, podman))
      && (!troubled ==> (e.None? <==> planner.Admissible(r, records, podman) && planner.Plannable(r, records)))
    requires act == if e.None? then Planned(plan.value) else Declined
    ensures Answered(planner, r, act, e, troubled)
  {
    hide Planner.Answers, Planner.Admissible, Planner.Plannable;
  }

  method Ask(planner: Planner, request: Request) returns (e: Option<Error>, ghost act: Act)
    requires planner.Ready() && planner.engine.host.kernel.Valid()
    modifies planner.engine.host`plans, planner.engine.host`faults, planner.engine.host`said,
      planner.engine.host`clock
    ensures planner.engine.host.kernel.Valid()
    ensures Steps(planner.engine.host.generates, old(WorldOf(planner.engine.host)), act, WorldOf(planner.engine.host))
    ensures Answered(planner, request, act, e, planner.engine.host.faults > old(planner.engine.host.faults))
  {
    hide Sincere, Executed, Served, Untouched, RanInTime, UnitsUnder, Answered;
    hide Planner.Answers, Planner.Admissible, Planner.Plannable, Planner.Ready;
    hide Planner.NoneMissed, Planner.Records;
    ghost var host := planner.engine.host;
    var plan;
    ghost var missed;
    e, plan, missed := planner.CreatePlan(request);
    act := if e.None? then Planned(plan.value) else Declined;
    AskIsAnswered(planner, request, e, plan, act, host.faults > old(host.faults));
  }

  method Execute(planner: Planner, planId: string) returns (e: Option<Error>, ghost act: Act)
    requires planner.engine.host.kernel.Valid()
    modifies planner.engine.host, planner.engine.host.kernel
    ensures planner.engine.host.kernel.Valid()
    ensures planner.engine.host.podmanVersion == old(planner.engine.host.podmanVersion)
    ensures Steps(planner.engine.host.generates, old(WorldOf(planner.engine.host)), act, WorldOf(planner.engine.host))
    ensures var host, roots := planner.engine.host, planner.engine.roots;
      if planId in old(host.plans) then
        && act == Ran(planId, e)
        && Carried(host, roots, old(OutsetOf(host)), old(host.plans)[planId], e)
        && Bounded(host, roots, old(OutsetOf(host)), old(host.plans)[planId], e)
      else act == Declined && e.Some?
  {
    hide Executed, Carried, Bounded, Served, Untouched, ContextOf, LetThrough, Current, UnitsUnder, Dated;
    ghost var host := planner.engine.host;
    e := planner.engine.ExecutePlan(planId);
    if planId in old(host.plans) {
      OutcomeIsStep(host, planner.engine.roots, old(OutsetOf(host)), old(host.plans)[planId], e);
    }
    act := if planId in old(host.plans) then Ran(planId, e) else Declined;
  }

  method Operate(planner: Planner, id: string, action: Action) returns (e: Option<Error>, ghost act: Act)
    requires planner.engine.host.kernel.Valid()
    modifies planner.engine.host`running, planner.engine.host`trace, planner.engine.host`faults,
      planner.engine.host`said
    ensures planner.engine.host.kernel.Valid()
    ensures Steps(planner.engine.host.generates, old(WorldOf(planner.engine.host)), act, WorldOf(planner.engine.host))
    ensures var host := planner.engine.host;
      && act == Serviced(id) && Heeded(action, old(host.running), host.running)
      && ServedInTurn(
           host.fileName, host.records, id, old(host.trace), host.trace, action, e, host.faults > old(host.faults))
  {
    hide Executed, Served, Untouched, RanInTime, UnitsUnder, ServedInTurn, Heeded, Sincere;
    e := planner.engine.Lifecycle(id, action);
    act := Serviced(id);
  }

  // Serving a list of commands yields a run from the world at the start to the one at the end.
  // If that run is clean and began owned, it ends owned.
  method Serve(planner: Planner, commands: seq<Command>, ghost ext: map<string, string>)
    returns (ghost worlds: seq<World>, ghost acts: seq<Act>)
    requires planner.Ready() && planner.engine.host.kernel.Valid()
    modifies planner.engine.host, planner.engine.host.kernel
    ensures planner.engine.host.kernel.Valid()
    ensures IsRun(planner.engine.host.generates, worlds, acts) && |acts| == |commands|
    ensures worlds[0] == old(WorldOf(planner.engine.host)) && worlds[|acts|] == WorldOf(planner.engine.host)
    ensures var generates := planner.engine.host.generates;
      BeginsOwned(generates, ext, worlds[0]) && IsCleanRun(generates, worlds, acts) ==>
        && Owned(generates, ext, worlds[|acts|].Books())
        && (InStep(generates, worlds[0].view) && (forall i :: 0 <= i < |acts| ==> Smooth(acts[i])) ==>
              InStep(generates, worlds[|acts|].view))
    ensures InTime(worlds[0]) ==> InTime(worlds[|acts|])
  {
    hide Steps, InTime, Answered, Carried, Bounded, ServedInTurn, Heeded;
    worlds, acts := [WorldOf(planner.engine.host)], [];
    for i := 0 to |commands|
      invariant planner.engine.host.kernel.Valid()
      invariant |acts| == i && IsRun(planner.engine.host.generates, worlds, acts)
      invariant worlds[0] == old(WorldOf(planner.engine.host)) && worlds[i] == WorldOf(planner.engine.host)
    {
      var e;
      ghost var act;
      e, act := Handle(planner, commands[i]);
      worlds, acts := worlds + [WorldOf(planner.engine.host)], acts + [act];
    }
    ghost var generates := planner.engine.host.generates;
    if InTime(worlds[0]) {
      RunsStayInTime(generates, worlds, acts, |acts|);
    }
    if IsCleanRun(generates, worlds, acts) && BeginsOwned(generates, ext, worlds[0]) {
      CleanRunsStayOwned(generates, ext, worlds, acts, |acts|);
      if InStep(generates, worlds[0].view) && forall i :: 0 <= i < |acts| ==> Smooth(acts[i]) {
        CleanRunsStayInStep(generates, ext, worlds, acts, |acts|);
      }
    }
  }

  lemma AboutItsRecord(generates: (string, string) -> bool, v: View, plan: Plan)
    requires ForRecord(v, plan)
    ensures var c := ContextOf(generates, v, plan);
      c.start == v && c.own == OwnNames(v.records, plan)
    ensures Active(v.records, plan.instanceId) && !plan.operation.Install?
  {
    hide Controlled;
  }

  // What a bound means once nothing calls for a refusal.
  lemma BoundedUnderControl(
    host: Host, roots: map<string, Root>, o: Outset, plan: Plan, e: Option<Error>, c: Context)
    requires Bounded(host, roots, o, plan, e) && c == ContextOf(host.generates, o.view, plan)
    requires c.controlled && c.start.loaded == c.start.store
    requires LetThrough(plan, o.view.records, o.view.store) && Unblocked(roots, plan, o.tree, host.kernel.anchors)
    requires plan.operation.Remove? || PlanFits(host.generates, c.start.store, plan, c.own)
    ensures e.Some? && !Refused(e.value) ==> host.faults > o.faults
    ensures host.faults == o.faults && Current(plan, host.clock) ==> e.None?
    ensures IsRollbackFailure(e) ==> host.faults >= o.faults + 2
  {
    hide ContextOf, LetThrough, Current, Unblocked, PlanFits;
    if (e.Some? ==> !Refused(e.value)) || RunsNow(host, o, plan) {
      assert FaultBound(host, c, plan, e, o.faults, Unblocked(roots, plan, o.tree, host.kernel.anchors));
    }
  }

  // What such a run is good for: on the machine it leaves behind, an update or remove that
  // fits and whose directories are not blocked fails only through a fault or by having
  // expired or been tampered with, and a failed rollback takes two faults.
  method ExecuteFitting(engine: Engine, planId: string, ghost ext: map<string, string>) returns (e: Option<Error>)
    requires var host := engine.host;
      && host.kernel.Valid()
      && Owned(host.generates, ext, Ledger(host.store, host.records)) && InStep(host.generates, host.Now())
      && planId in host.plans && var plan := host.plans[planId];
      && ForRecord(host.Now(), plan)
      && (plan.operation.Remove? || PlanFits(host.generates, host.store, plan, OwnNames(host.records, plan)))
      && Unblocked(engine.roots, plan, host.kernel.tree, host.kernel.anchors)
    modifies engine.host, engine.host.kernel
    ensures Current(old(engine.host.plans)[planId], engine.host.clock) ==>
      engine.host.faults == old(engine.host.faults) ==> e.None?
    ensures e.Some? && !Refused(e.value) ==> engine.host.faults > old(engine.host.faults)
    ensures IsRollbackFailure(e) ==> engine.host.faults >= old(engine.host.faults) + 2
  {
    ghost var host, plan, o := engine.host, engine.host.plans[planId], OutsetOf(engine.host);
    ghost var c := ContextOf(host.generates, host.Now(), plan);
    PlansAreControlled(host.generates, ext, host.Now(), plan);
    AboutItsRecord(host.generates, host.Now(), plan);
    ActiveHasNoDrift(host.generates, ext, Ledger(host.store, host.records), plan.instanceId);
    assert LetThrough(plan, host.records, host.store);
    assert o.view == host.Now() && o.view.records == host.records && o.view.store == host.store == c.start.store;
    assert o.tree == host.kernel.tree && o.faults == host.faults && c.start.loaded == c.start.store;
    hide *;
    e := engine.ExecutePlan(planId);
    BoundedUnderControl(host, engine.roots, o, plan, e, c);
  }
}

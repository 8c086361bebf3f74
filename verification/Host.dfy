// The machine the engine works on: the Podman source map, systemd, and the record
// store, each of whose calls may fail at any time.
//
// The engine changes the machine through these methods alone. Every state-changing one
// appends a Step to the ghost trace, and every call that does less than a healthy machine
// would have done adds one to the ghost fault counter. So a statement about a trace that is
// Linked speaks of every state in between, and a statement about `faults` speaks of every
// schedule of failures. Whatever a call reports as an error is also kept in `said`.
module Hosts {
  import opened Model
  import opened QuadletNames
  import opened Text
  import opened Paths
  import opened Directories
  import opened Layouts

  datatype View = View(
    store: map<string, string>,      // Quadlet sources by name
    loaded: map<string, string>,     // the sources systemd read at its last reload
    running: map<Unit, string>,      // active units and the source each was started from
    records: map<string, Instance>)

  datatype Call =
    | InstallSource(name: string, source: string)
    | RemoveSource(name: string, force: bool)
    | Reload
    | StartUnit(unit: Unit) | StopUnit(unit: Unit) | RestartUnit(unit: Unit)
    | SaveRecord(record: Instance)

  datatype Phase = Forward | Rollback

  datatype Step = Step(call: Call, ok: bool, phase: Phase, before: View, after: View)

  // u is active in both or in neither, on the same source.
  ghost predicate SameAt(a: map<Unit, string>, b: map<Unit, string>, u: Unit) {
    (u in a <==> u in b) && (u in a ==> a[u] == b[u])
  }

  ghost predicate SameElsewhere(a: map<Unit, string>, b: map<Unit, string>, u: Unit) {
    SameBut(a, b, {u})
  }

  // Only these units may differ.
  ghost predicate SameBut(a: map<Unit, string>, b: map<Unit, string>, units: set<Unit>) {
    forall u :: u !in units ==> (u in a <==> u in b) && (u in a ==> a[u] == b[u])
  }

  // Some of these units are down, and nothing else has changed.
  ghost predicate Stopped(a: map<Unit, string>, b: map<Unit, string>, units: set<Unit>) {
    && (forall u :: u in b ==> u in a && b[u] == a[u])
    && (forall u :: u in a && u !in units ==> u in b)
  }

  // systemd has a definition for u.
  predicate Runnable(generates: (string, string) -> bool, loaded: map<string, string>, u: Unit) {
    u.Service? && u.name in loaded && generates(u.name, loaded[u.name])
  }

  // u is active on the definition loaded last.
  ghost predicate Fresh(
    generates: (string, string) -> bool, loaded: map<string, string>, running: map<Unit, string>, u: Unit)
  {
    Runnable(generates, loaded, u) && u in running && running[u] == loaded[u.name]
  }

  // The whole effect each call may have on the machine.
  ghost predicate Obeys(generates: (string, string) -> bool, s: Step) {
    var was, now := s.before, s.after;
    match s.call
    case InstallSource(name, source) =>
      if s.ok then name !in was.store && now == was.(store := was.store[name := source]) else now == was
    case RemoveSource(name, force) =>
      if s.ok then
        && name in was.store && (force || Service(name) !in was.running)
        && now == was.(
             store := was.store - {name}, running := if force then was.running - {Service(name)} else was.running)
      else now == was
    case Reload => now == was.(loaded := was.store) || (!s.ok && now == was)
    case StopUnit(u) => now == was.(running := was.running - {u}) || (!s.ok && now == was)
    case StartUnit(u) =>
      && now == was.(running := now.running) && SameElsewhere(was.running, now.running, u)
      && (u in was.running ==> now == was)
      && (u in now.running ==> u in was.running || Fresh(generates, was.loaded, now.running, u))
    case RestartUnit(u) =>
      && now == was.(running := now.running) && SameElsewhere(was.running, now.running, u)
      && (u in now.running ==>
            Fresh(generates, was.loaded, now.running, u) || (!s.ok && SameAt(was.running, now.running, u)))
    case SaveRecord(record) => now == if s.ok then was.(records := was.records[record.id := record]) else was
  }

  // tr leads from start to now, one call after the other, with nothing in between.
  ghost predicate Linked(generates: (string, string) -> bool, start: View, tr: seq<Step>, now: View) {
    if tr == [] then now == start
    else
      var last := |tr| - 1;
      now == tr[last].after && Obeys(generates, tr[last]) && Linked(generates, start, tr[..last], tr[last].before)
  }

  // What a failure adds to the errors reported. That a resource generates no unit is the
  // engine's own finding.
  function Voiced(e: Option<Error>): seq<Error> {
    if e.Some? && !e.value.UnitNotGenerated? then [e.value] else []
  }

  class Host {
    const generates: (string, string) -> bool  // does systemd's generator accept this source?
    const fileName: string -> string           // what systemd calls the unit of a resource
    const kernel: Kernel                       // the file system
    var store: map<string, string>
    var loaded: map<string, string>
    var running: map<Unit, string>
    var records: map<string, Instance>
    var plans: map<string, Plan>
    var docs: map<string, Instance>            // the record each instance's documentation was written from
    var clock: nat
    var podmanVersion: string
    ghost var trace: seq<Step>
    ghost var phase: Phase
    ghost var faults: nat
    ghost var said: seq<Error>                 // the errors it has reported, in order

    constructor (
      generates: (string, string) -> bool, fileName: string -> string, kernel: Kernel, podmanVersion: string)
      ensures this.generates == generates && this.fileName == fileName && this.kernel == kernel
      ensures this.podmanVersion == podmanVersion
      ensures store == loaded == map[] && running == map[] && records == map[] && plans == map[] && docs == map[]
      ensures trace == [] && phase == Forward && faults == 0 && said == []
    {
      this.generates, this.fileName, this.kernel, this.podmanVersion := generates, fileName, kernel, podmanVersion;
      store, loaded, running, records, plans, docs, clock := map[], map[], map[], map[], map[], map[], 0;
      trace, phase, faults, said := [], Forward, 0, [];
    }

    ghost function Now(): View
      reads this`store, this`loaded, this`running, this`records
    {
      View(store, loaded, running, records)
    }

    function UnitName(name: string, source: string): Unit {
      if generates(name, source) then Service(name) else NoUnit
    }

    predicate CanRun(u: Unit)
      reads this`loaded
    {
      Runnable(generates, loaded, u)
    }

    // u is active on the definition loaded last.
    ghost predicate UpToDate(u: Unit)
      reads this`loaded, this`running
    {
      Fresh(generates, loaded, running, u)
    }

    method Flip() returns (b: bool) {
      b := *;
    }

    // ---- Podman ----

    // The client checks the name first, here and below, and reads no more than its limit.
    method GetQuadlet(name: string) returns (e: Option<Error>, source: string)
      modifies this`faults, this`said
      ensures e.None? ==> ClientAccepts(name) && name in store && source == Cut(store[name])
      ensures e.Some? ==> e.value == SourceUnreadable(name)
      ensures said == old(said) + Voiced(e)
      ensures faults == old(faults) + if e.Some? && ClientAccepts(name) && name in store then 1 else 0
    {
      if !ClientAccepts(name) {
        said := said + [SourceUnreadable(name)];
        return Some(SourceUnreadable(name)), "";
      }
      var fault := Flip();
      if fault || name !in store {
        faults := faults + if name in store then 1 else 0;
        said := said + [SourceUnreadable(name)];
        return Some(SourceUnreadable(name)), "";
      }
      return None, Cut(store[name]);
    }

    method ListQuadlets() returns (e: Option<Error>, units: map<string, Unit>)
      modifies this`faults, this`said
      ensures e.None? ==> units.Keys == store.Keys && forall n :: n in store ==> units[n] == UnitName(n, store[n])
      ensures e.Some? ==> e.value == ListUnreadable
      ensures said == old(said) + Voiced(e)
      ensures faults == old(faults) + if e.Some? then 1 else 0
    {
      var fault := Flip();
      if fault {
        faults := faults + 1;
        said := said + [ListUnreadable];
        return Some(ListUnreadable), map[];
      }
      return None, map n | n in store :: UnitName(n, store[n]);
    }

    // A plain install: it refuses a name that exists, and never replaces.
    method InstallQuadlet(name: string, source: string) returns (e: Option<Error>)
      modifies this`store, this`trace, this`faults, this`said
      ensures e.None? ==> ClientAccepts(name) && name !in old(store) && store == old(store)[name := source]
      ensures e.Some? ==> e.value == SourceRefused(name) && store == old(store)
      ensures said == old(said) + Voiced(e)
      ensures faults == old(faults) + if e.Some? && ClientAccepts(name) && name !in old(store) then 1 else 0
      ensures trace == old(trace) + [Step(InstallSource(name, source), e.None?, phase, old(Now()), Now())]
    {
      ghost var before := Now();
      var fault := Flip();
      if fault || name in store || !ClientAccepts(name) {
        faults := faults + if ClientAccepts(name) && name !in store then 1 else 0;
        e := Some(SourceRefused(name));
      } else {
        store := store[name := source];
        e := None;
      }
      said := said + Voiced(e);
      trace := trace + [Step(InstallSource(name, source), e.None?, phase, before, Now())];
    }

    // Without force a running unit is refused; with force it is stopped.
    method RemoveQuadlet(name: string, force: bool) returns (e: Option<Error>)
      modifies this`store, this`running, this`trace, this`faults, this`said
      ensures e.None? ==> ClientAccepts(name) && name in old(store) && store == old(store) - {name}
      ensures e.None? ==> running == if force then old(running) - {Service(name)} else old(running)
      ensures e.None? && !force ==> Service(name) !in running
      ensures e.Some? ==> e.value == SourceRefused(name) && store == old(store) && running == old(running)
      ensures said == old(said) + Voiced(e)
      ensures faults == old(faults) +
        if e.Some? && ClientAccepts(name) && name in old(store) && (force || Service(name) !in old(running)) then 1
        else 0
      ensures trace == old(trace) + [Step(RemoveSource(name, force), e.None?, phase, old(Now()), Now())]
    {
      ghost var before := Now();
      var fault := Flip();
      if !ClientAccepts(name) || name !in store || (!force && Service(name) in running) {
        e := Some(SourceRefused(name));
      } else if fault {
        faults := faults + 1;
        e := Some(SourceRefused(name));
      } else {
        store := store - {name};
        if force {
          running := running - {Service(name)};
        }
        e := None;
      }
      said := said + Voiced(e);
      trace := trace + [Step(RemoveSource(name, force), e.None?, phase, before, Now())];
    }

    // The version probe.
    method Version() returns (e: Option<Error>, version: string)
      modifies this`faults, this`said
      ensures e.None? ==> version == podmanVersion
      ensures said == old(said) + Voiced(e)
      ensures faults == old(faults) + if e.Some? then 1 else 0
    {
      var fault := Flip();
      if fault {
        faults := faults + 1;
        said := said + [ListUnreadable];
        return Some(ListUnreadable), "";
      }
      return None, podmanVersion;
    }

    // ---- systemd ----

    // A failed reload may or may not have taken effect.
    method DaemonReload() returns (e: Option<Error>)
      modifies this`loaded, this`trace, this`faults, this`said
      ensures e.None? ==> loaded == store
      ensures e.Some? ==> e.value == ReloadFailed && (loaded == store || loaded == old(loaded))
      ensures said == old(said) + Voiced(e)
      ensures faults == old(faults) + if e.Some? then 1 else 0
      ensures trace == old(trace) + [Step(Reload, e.None?, phase, old(Now()), Now())]
    {
      ghost var before := Now();
      var fault := Flip();
      var took := Flip();
      if !fault || took {
        loaded := store;
      }
      if fault {
        faults := faults + 1;
        e := Some(ReloadFailed);
      } else {
        e := None;
      }
      said := said + Voiced(e);
      trace := trace + [Step(Reload, e.None?, phase, before, Now())];
    }

    // A failed stop may or may not have stopped the unit.
    method Stop(u: Unit) returns (e: Option<Error>)
      modifies this`running, this`trace, this`faults, this`said
      ensures e.None? ==> running == old(running) - {u}
      ensures e.Some? ==> e.value == UnitFailed(u) && (running == old(running) || running == old(running) - {u})
      ensures said == old(said) + Voiced(e)
      ensures faults == old(faults) + if e.Some? && (CanRun(u) || u in old(running)) then 1 else 0
      ensures trace == old(trace) + [Step(StopUnit(u), e.None?, phase, old(Now()), Now())]
    {
      ghost var before := Now();
      var fail := Flip();
      var took := Flip();
      if fail {
        faults := faults + if CanRun(u) || u in running then 1 else 0;
        e := Some(UnitFailed(u));
      } else {
        e := None;
      }
      if !fail || took {
        running := running - {u};
      }
      said := said + Voiced(e);
      trace := trace + [Step(StopUnit(u), e.None?, phase, before, Now())];
    }

    // Restart runs the definition loaded last. A failed restart may leave the unit down,
    // on its old definition, or on the new one; a reported success may still leave it down.
    method Restart(u: Unit) returns (e: Option<Error>)
      modifies this`running, this`trace, this`faults, this`said
      ensures SameElsewhere(old(running), running, u)
      ensures u in running ==> UpToDate(u) || (e.Some? && SameAt(old(running), running, u))
      ensures e.None? ==> CanRun(u)
      ensures e.Some? ==> e.value == UnitFailed(u)
      ensures said == old(said) + Voiced(e)
      ensures faults == old(faults) + if CanRun(u) && (e.Some? || u !in running) then 1 else 0
      ensures trace == old(trace) + [Step(RestartUnit(u), e.None?, phase, old(Now()), Now())]
    {
      ghost var before := Now();
      var reported := Flip();
      var up := Flip();
      var down := Flip();
      if CanRun(u) && up {
        running := running[u := loaded[u.name]];
      } else if down || (CanRun(u) && reported) {
        running := running - {u};
      }
      e := if CanRun(u) && reported then None else Some(UnitFailed(u));
      faults := faults + if CanRun(u) && (e.Some? || u !in running) then 1 else 0;
      said := said + Voiced(e);
      trace := trace + [Step(RestartUnit(u), e.None?, phase, before, Now())];
    }

    // Start leaves a running unit alone; otherwise it behaves as Restart.
    method Start(u: Unit) returns (e: Option<Error>)
      modifies this`running, this`trace, this`faults, this`said
      ensures SameElsewhere(old(running), running, u)
      ensures u in old(running) ==> running == old(running)
      ensures u !in old(running) && u in running ==> UpToDate(u)
      ensures e.None? ==> CanRun(u) || u in old(running)
      ensures e.Some? ==> e.value == UnitFailed(u)
      ensures said == old(said) + Voiced(e)
      ensures faults == old(faults) +
        if (CanRun(u) || u in old(running)) && (e.Some? || u !in running) then 1 else 0
      ensures trace == old(trace) + [Step(StartUnit(u), e.None?, phase, old(Now()), Now())]
    {
      ghost var before := Now();
      var reported := Flip();
      var up := Flip();
      var possible := CanRun(u) || u in running;
      if u !in running && CanRun(u) && up {
        running := running[u := loaded[u.name]];
      }
      e := if possible && reported then None else Some(UnitFailed(u));
      faults := faults + if possible && (e.Some? || u !in running) then 1 else 0;
      said := said + Voiced(e);
      trace := trace + [Step(StartUnit(u), e.None?, phase, before, Now())];
    }

    // The unit's active state; reading it may fail.
    method Status(u: Unit) returns (e: Option<Error>, active: bool)
      modifies this`faults, this`said
      ensures e.None? ==> active == (u in running)
      ensures e.Some? ==> e.value == UnitFailed(u)
      ensures said == old(said) + if e.Some? then [e.value] else if active then [] else [UnitNotActive(u)]
      ensures faults == old(faults) + if e.Some? then 1 else 0
    {
      var fault := Flip();
      if fault {
        faults := faults + 1;
        said := said + [UnitFailed(u)];
        return Some(UnitFailed(u)), false;
      }
      if u !in running {
        said := said + [UnitNotActive(u)];
      }
      return None, u in running;
    }

    // ---- record store, documentation and directories ----

    method GetInstance(id: string) returns (e: Option<Error>, record: Option<Instance>)
      modifies this`faults, this`said
      ensures e.None? ==> id in records && record == Some(records[id])
      ensures e.Some? ==> record.None? && (e.value == NotFound || e.value == StateUnreadable)
      ensures e == Some(NotFound) ==> id !in records
      ensures said == old(said) + Voiced(e)
      ensures faults == old(faults) + if e == Some(StateUnreadable) then 1 else 0
    {
      var fault := Flip();
      if fault {
        faults := faults + 1;
        said := said + [StateUnreadable];
        return Some(StateUnreadable), None;
      }
      if id !in records {
        said := said + [NotFound];
        return Some(NotFound), None;
      }
      return None, Some(records[id]);
    }

    // A save that fails leaves the previous record, as StateStore proves of the real files.
    method SaveInstance(record: Instance) returns (e: Option<Error>)
      modifies this`records, this`trace, this`faults, this`said
      ensures e.None? ==> records == old(records)[record.id := record]
      ensures e.Some? ==> e.value == SaveFailed && records == old(records)
      ensures said == old(said) + Voiced(e)
      ensures faults == old(faults) + if e.Some? then 1 else 0
      ensures trace == old(trace) + [Step(SaveRecord(record), e.None?, phase, old(Now()), Now())]
    {
      ghost var before := Now();
      var fault := Flip();
      if fault {
        faults := faults + 1;
        e := Some(SaveFailed);
      } else {
        records := records[record.id := record];
        e := None;
      }
      said := said + Voiced(e);
      trace := trace + [Step(SaveRecord(record), e.None?, phase, before, Now())];
    }

    method GetPlan(id: string) returns (e: Option<Error>, plan: Option<Plan>)
      modifies this`faults, this`said
      ensures e.None? ==> id in plans && plan == Some(plans[id])
      ensures e.Some? ==> plan.None? && (e.value == NotFound || e.value == StateUnreadable)
      ensures e == Some(NotFound) ==> id !in plans
      ensures said == old(said) + Voiced(e)
      ensures faults == old(faults) + if e == Some(StateUnreadable) then 1 else 0
    {
      var fault := Flip();
      if fault {
        faults := faults + 1;
        said := said + [StateUnreadable];
        return Some(StateUnreadable), None;
      }
      if id !in plans {
        said := said + [NotFound];
        return Some(NotFound), None;
      }
      return None, Some(plans[id]);
    }

    method SavePlan(plan: Plan) returns (e: Option<Error>)
      modifies this`plans, this`faults, this`said
      ensures e.None? ==> plans == old(plans)[plan.id := plan]
      ensures e.Some? ==> e.value == SaveFailed && plans == old(plans)
      ensures said == old(said) + Voiced(e)
      ensures faults == old(faults) + if e.Some? then 1 else 0
    {
      var fault := Flip();
      if fault {
        faults := faults + 1;
        said := said + [SaveFailed];
        return Some(SaveFailed);
      }
      plans := plans[plan.id := plan];
      return None;
    }

    // The caller ignores the outcome, so only the effect matters.
    method DeletePlan(id: string)
      modifies this`plans, this`faults
      ensures plans == old(plans) - {id} || (plans == old(plans) && faults > old(faults))
      ensures faults >= old(faults)
    {
      var fault := Flip();
      if fault {
        faults := faults + 1;
      } else {
        plans := plans - {id};
      }
    }

    // A failed write may leave the one instance's documentation in any state.
    method WriteDocs(record: Instance) returns (e: Option<Error>)
      modifies this`docs, this`faults, this`said
      ensures e.None? ==> docs == old(docs)[record.id := record]
      ensures docs - {record.id} == old(docs) - {record.id}
      ensures e.Some? ==> e.value == DocsFailed
      ensures said == old(said) + Voiced(e)
      ensures faults == old(faults) + if e.Some? then 1 else 0
    {
      var fault := Flip();
      var took := Flip();
      if !fault {
        docs := docs[record.id := record];
      } else if took {
        docs := docs - {record.id};
      }
      faults := faults + if fault then 1 else 0;
      e := if fault then Some(DocsFailed) else None;
      said := said + Voiced(e);
    }

    // Creating an application directory, as module Directories does it. Without a fault it
    // succeeds exactly when the way is clear.
    method EnsureDirectory(root: Root, relative: string) returns (e: Option<Error>)
      requires kernel.Valid()
      modifies this`faults, this`said, kernel
      ensures kernel.Valid() && kernel.open == old(kernel.open)
      ensures MadePartly(old(kernel.tree), kernel.anchors, root, relative, kernel.tree)
      ensures e.None? ==>
        kernel.tree == MadeTo(old(kernel.tree), kernel.anchors, root, relative, |Split(relative, '/')|)
      ensures e.None? ==> Stands(kernel.tree, kernel.anchors, root, relative)
      ensures e.Some? ==> e.value == DirectoryFailed
      ensures faults >= old(faults) && (e.None? ==> faults == old(faults))
      ensures said == old(said) + Voiced(e)
      ensures faults == old(faults) ==> (e.None? <==> WayClear(old(kernel.tree), kernel.anchors, root, relative))
    {
      hide Resolve, Split, Grow, Reach, Clear;
      ghost var t, before, parts := kernel.tree, kernel.faults, Split(relative, '/');
      assert parts[..0] == [] && parts[..|parts|] == parts;
      if root.agentPath in kernel.anchors {
        GrowNothing(t, kernel.anchors[root.agentPath]);
        OpenIffClear(t, kernel.anchors[root.agentPath], parts);
        ClearIsDir(t, kernel.anchors[root.agentPath], parts);
      }
      var made := EnsureDir(kernel, root, relative);
      faults := faults + (kernel.faults - before);
      e := if made.None? then Some(DirectoryFailed) else None;
      said := said + Voiced(e);
      assert MadeTo(t, kernel.anchors, root, relative, 0) == t;
      if root.agentPath in kernel.anchors && t.IsDir(kernel.anchors[root.agentPath]) {
        ghost var n :| 0 <= n <= |parts| && kernel.tree == Grow(t, kernel.anchors[root.agentPath], parts[..n]);
        assert kernel.tree == MadeTo(t, kernel.anchors, root, relative, n);
      }
    }

    // Time moves forward by any amount.
    method Clock() returns (t: nat)
      modifies this`clock
      ensures t == clock >= old(clock)
    {
      var passed: int := *;
      clock := clock + if passed > 0 then passed else 0;
      t := clock;
    }
  }
}

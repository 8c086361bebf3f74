// Whole runs: any sequence of plans, executions and lifecycle actions, with any faults.
//
// A step is clean when it leaves no sources behind that its records do not tell of: a failed
// rollback or save left the store reading as before, and no install went through for an
// instance that was still active. In a clean run the engine's records and the source store
// never come apart, and a run in which they never do is clean.
module Ownership {
  import opened QuadletNames
  import opened Model
  import opened Hosts
  import opened Journal
  import opened Engines
  import opened Moves
  import opened Planning
  import Catalogs

  datatype World = World(view: View, plans: map<string, Plan>, clock: nat) {
    function Books(): Ledger {
      Ledger(view.store, view.records)
    }
  }

  datatype Act =
    | Planned(plan: Plan)
    | Ran(key: string, e: Option<Error>)
    | Serviced(id: string)
    | Declined

  // One step of a run, as the engine's own contracts allow it.
  ghost predicate Steps(generates: (string, string) -> bool, pre: World, act: Act, post: World) {
    match act
    case Planned(plan) =>
      && post.view == pre.view && post.plans == pre.plans[plan.id := plan] && Sincere(plan)
      && pre.clock <= plan.createdAt <= post.clock
    case Ran(key, e) =>
      && key in pre.plans && pre.clock <= post.clock
      && Executed(generates, pre.Books(), pre.plans[key], e, post.Books())
      && Served(generates, ContextOf(generates, pre.view, pre.plans[key]), pre.plans[key], e, post.view)
      && Untouched(ContextOf(generates, pre.view, pre.plans[key]), post.view.running)
      && RanInTime(ContextOf(generates, pre.view, pre.plans[key]).id, pre, pre.plans[key], e, post)
      && (forall k :: k in post.plans ==> k in pre.plans && post.plans[k] == pre.plans[k])
    case Serviced(id) =>
      && post == pre.(view := pre.view.(running := post.view.running))
      && SameBut(pre.view.running, post.view.running, UnitsUnder(pre.view.records, id))
      && (Active(pre.view.records, id) || post == pre)
      && forall u :: u in post.view.running ==>
           || SameAt(pre.view.running, post.view.running, u)
           || Fresh(generates, post.view.loaded, post.view.running, u)
    case Declined => post == pre.(clock := post.clock) && pre.clock <= post.clock
  }

  // Nothing happens unless the plan is current and let through, and a record saved is dated
  // while the plan ran.
  ghost predicate RanInTime(id: string, pre: World, plan: Plan, e: Option<Error>, post: World) {
    && ((Current(plan, pre.clock) && LetThrough(plan, pre.view.records, pre.view.store)) ||
          (e.Some? && post.view == pre.view))
    && Dated(id, plan, e, post.view.records, pre.clock, post.clock)
  }

  ghost predicate Active(records: map<string, Instance>, id: string) {
    id in records && records[id].removedAt.None?
  }

  // The client reads the same sources from both.
  ghost predicate ReadsAlike(a: map<string, string>, b: map<string, string>) {
    a.Keys == b.Keys && forall n :: n in a ==> Cut(a[n]) == Cut(b[n])
  }

  // Nothing went wrong that the engine does not undo, and no install went through over an
  // active instance. For a failed save it is the plan that decides.
  ghost predicate Clean(pre: World, act: Act, post: World) {
    act.Ran? && act.key in pre.plans ==>
      var plan := pre.plans[act.key];
      && (IsRollbackFailure(act.e) ==> ReadsAlike(pre.view.store, post.view.store))
      && (act.e == Some(SaveFailed) ==>
            ReadsAlike(pre.view.store, TargetStore(pre.view.store, plan, OwnNames(pre.view.records, plan))))
      && (plan.operation.Install? && (act.e.None? || act.e == Some(DocsFailed)) ==>
            !Active(pre.view.records, plan.instanceId))
  }

  ghost predicate PlansSincere(plans: map<string, Plan>) {
    forall k :: k in plans ==> Sincere(plans[k])
  }

  // ---- the invariant ----

  // install, then updates, then at most one final remove; the dates say the same.
  ghost predicate HistoryIsRegular(r: Instance) {
    && r.history != []
    && r.history[0] == Entry(r.installedAt, Install)
    && (forall i :: 0 < i < |r.history| - 1 ==> r.history[i].operation == Update)
    && var last := r.history[|r.history| - 1];
    && last.at == r.updatedAt
    && (|r.history| > 1 ==> last.operation == Update || last.operation == Remove)
    && r.removedAt == if last.operation == Remove then Some(last.at) else None
  }

  // A record is about real sources rendered for its own instance.
  ghost predicate RecordIsRegular(generates: (string, string) -> bool, id: string, r: Instance) {
    && r.id == id && Catalogs.SafeId(id)
    && r.resources != map[]
    && HistoryIsRegular(r)
    && forall n :: n in r.resources ==> ResourceIsRegular(generates, id, n, r.resources[n])
  }

  ghost predicate ResourceIsRegular(generates: (string, string) -> bool, id: string, n: string, x: ResourceState) {
    && Marked(x.source, id) && x.sha == Sha256(x.source) && Cut(x.source) == x.source
    && (x.unit == NoUnit || x.unit == Service(n))
    && (|x.source| < READ_LIMIT ==> x.unit == UnitFor(generates, n, x.source))
  }

  // id is active and the source under n is the one its record holds.
  ghost predicate Owns(l: Ledger, id: string, n: string) {
    Active(l.records, id) && n in l.records[id].resources
  }

  ghost predicate RecordsRegular(generates: (string, string) -> bool, records: map<string, Instance>) {
    forall id :: id in records ==> RecordIsRegular(generates, id, records[id])
  }

  ghost predicate ExternalsKept(ext: map<string, string>, store: map<string, string>) {
    forall n :: n in ext ==> n in store && store[n] == ext[n]
  }

  // No record, active or removed, names an external source.
  ghost predicate NamesApart(ext: map<string, string>, records: map<string, Instance>) {
    forall id, n :: id in records && n in records[id].resources ==> n !in ext
  }

  ghost predicate OwnedLive(l: Ledger) {
    forall id, n :: Owns(l, id, n) ==>
      n in l.store && ClientAccepts(n) && Cut(l.store[n]) == l.records[id].resources[n].source
  }

  ghost predicate OwnersDistinct(l: Ledger) {
    forall a, b, n :: Owns(l, a, n) && Owns(l, b, n) ==> a == b
  }

  ghost predicate StoreCovered(ext: map<string, string>, l: Ledger) {
    forall n :: n in l.store && n !in ext ==> exists id :: Owns(l, id, n)
  }

  // The store is exactly the external sources and what active instances own, every owned
  // source live and reading as its baseline, and owned names disjoint.
  ghost predicate Owned(generates: (string, string) -> bool, ext: map<string, string>, l: Ledger) {
    && RecordsRegular(generates, l.records)
    && ExternalsKept(ext, l.store)
    && NamesApart(ext, l.records)
    && OwnedLive(l)
    && OwnersDistinct(l)
    && StoreCovered(ext, l)
  }

  lemma EmptyIsOwned(generates: (string, string) -> bool, ext: map<string, string>)
    ensures Owned(generates, ext, Ledger(ext, map[]))
  {
  }

  // ---- a removed instance stays as it is ----

  // A removed record's baselines cannot all match: its names are gone, or another instance
  // has them, under a source that carries that instance's mark.
  lemma RemovedHasDrift(generates: (string, string) -> bool, ext: map<string, string>, l: Ledger, id: string)
    requires Owned(generates, ext, l) && id in l.records && l.records[id].removedAt.Some?
    ensures !DriftFree(l.records[id], l.store)
  {
    hide Cut, ClientAccepts;
    var r := l.records[id];
    assert RecordIsRegular(generates, id, r);
    var n :| n in r.resources;
    assert ResourceIsRegular(generates, id, n, r.resources[n]);
    if DriftFree(r, l.store) {
      assert LiveDigest(l.store, n) == r.resources[n].sha;
      var owner :| Owns(l, owner, n);
      assert RecordIsRegular(generates, owner, l.records[owner]);
      assert ResourceIsRegular(generates, owner, n, l.records[owner].resources[n]);
      MarkNamesOneInstance(Cut(l.store[n]), id, owner);
    }
  }

  // An active record's baselines all match.
  lemma ActiveHasNoDrift(generates: (string, string) -> bool, ext: map<string, string>, l: Ledger, id: string)
    requires Owned(generates, ext, l) && Active(l.records, id)
    ensures DriftFree(l.records[id], l.store)
  {
    hide Cut, ClientAccepts, StoreCovered, OwnersDistinct, NamesApart, ExternalsKept;
    assert RecordIsRegular(generates, id, l.records[id]);
    forall n | n in l.records[id].resources
      ensures LiveDigest(l.store, n) == l.records[id].resources[n].sha
    {
      assert Owns(l, id, n);
      assert ResourceIsRegular(generates, id, n, l.records[id].resources[n]);
    }
  }

  lemma {:induction false} RemovedIsFrozen(
    generates: (string, string) -> bool, ext: map<string, string>, pre: Ledger, plan: Plan, e: Option<Error>,
    post: Ledger)
    requires Owned(generates, ext, pre)
    requires plan.instanceId in pre.records && pre.records[plan.instanceId].removedAt.Some?
    requires !plan.operation.Install?
    requires Executed(generates, pre, plan, e, post)
    ensures e.Some? && post == pre && !IsRollbackFailure(e)
  {
    RemovedHasDrift(generates, ext, pre, plan.instanceId);
  }

  // ---- each kind of execution keeps the invariant ----

  // One instance's record is rewritten, its old sources go, fresh ones come in their place.
  ghost predicate Turnover(pre: Ledger, post: Ledger, id: string, own: set<string>, incoming: map<string, string>) {
    && id in post.records && post.records == pre.records[id := post.records[id]]
    && own == (if Active(pre.records, id) then pre.records[id].resources.Keys else {})
    && post.store == (pre.store - own) + incoming
    && (forall n :: n in incoming ==> n !in pre.store - own)
    && var resources := post.records[id].resources;
    && if post.records[id].removedAt.None? then
         && resources.Keys == incoming.Keys
         && forall n :: n in incoming ==> ClientAccepts(n) && resources[n].source == Cut(incoming[n])
       else
         incoming == map[] && resources.Keys == own
  }

  lemma OwnsAfter(
    pre: Ledger, post: Ledger, id: string, own: set<string>, incoming: map<string, string>, a: string, n: string)
    requires Turnover(pre, post, id, own, incoming)
    ensures Owns(post, a, n) <==> if a == id then n in incoming else Owns(pre, a, n)
  {
  }

  lemma TurnoverKeepsStore(
    generates: (string, string) -> bool, ext: map<string, string>, pre: Ledger, post: Ledger, id: string,
    own: set<string>, incoming: map<string, string>)
    requires Owned(generates, ext, pre) && Turnover(pre, post, id, own, incoming)
    ensures ExternalsKept(ext, post.store) && NamesApart(ext, post.records)
  {
    forall n | n in ext
      ensures n in post.store && post.store[n] == ext[n] && n !in incoming && n !in own
    {
      assert n in pre.store && n !in own;
    }
    forall a, n | a in post.records && n in post.records[a].resources
      ensures n !in ext
    {
      if a != id {
        assert a in pre.records;
      }
    }
  }

  lemma TurnoverKeepsOwners(
    generates: (string, string) -> bool, ext: map<string, string>, pre: Ledger, post: Ledger, id: string,
    own: set<string>, incoming: map<string, string>)
    requires Owned(generates, ext, pre) && Turnover(pre, post, id, own, incoming)
    ensures OwnedLive(post) && OwnersDistinct(post)
  {
    hide RecordsRegular, ExternalsKept, NamesApart, StoreCovered, Cut, ClientAccepts;
    forall a, n | Owns(post, a, n)
      ensures n in post.store && ClientAccepts(n) && Cut(post.store[n]) == post.records[a].resources[n].source
      ensures a != id ==> Owns(pre, a, n) && n !in own && n !in incoming
    {
      OwnsAfter(pre, post, id, own, incoming, a, n);
      assert n in own ==> Owns(pre, id, n);
    }
    forall a, b, n | Owns(post, a, n) && Owns(post, b, n)
      ensures a == b
    {
      OwnsAfter(pre, post, id, own, incoming, a, n);
      OwnsAfter(pre, post, id, own, incoming, b, n);
    }
  }

  lemma TurnoverKeepsCover(
    generates: (string, string) -> bool, ext: map<string, string>, pre: Ledger, post: Ledger, id: string,
    own: set<string>, incoming: map<string, string>)
    requires Owned(generates, ext, pre) && Turnover(pre, post, id, own, incoming)
    ensures StoreCovered(ext, post)
  {
    hide RecordsRegular, ExternalsKept, NamesApart, OwnedLive, OwnersDistinct;
    forall n | n in post.store && n !in ext
      ensures exists a :: Owns(post, a, n)
    {
      if n in incoming {
        OwnsAfter(pre, post, id, own, incoming, id, n);
        assert Owns(post, id, n);
      } else {
        var a :| Owns(pre, a, n);
        OwnsAfter(pre, post, id, own, incoming, a, n);
        assert Owns(post, a, n);
      }
    }
  }

  lemma TurnoverKeepsOwned(
    generates: (string, string) -> bool, ext: map<string, string>, pre: Ledger, post: Ledger, id: string,
    own: set<string>, incoming: map<string, string>)
    requires Owned(generates, ext, pre) && Turnover(pre, post, id, own, incoming)
    requires RecordIsRegular(generates, id, post.records[id])
    ensures Owned(generates, ext, post)
  {
    hide RecordIsRegular, OwnedLive, OwnersDistinct, StoreCovered, ExternalsKept, NamesApart;
    TurnoverKeepsStore(generates, ext, pre, post, id, own, incoming);
    TurnoverKeepsOwners(generates, ext, pre, post, id, own, incoming);
    TurnoverKeepsCover(generates, ext, pre, post, id, own, incoming);
  }

  // A deployment is a turnover, and what it records is regular when the plan is sincere.
  lemma DeployedIsTurnover(
    generates: (string, string) -> bool, pre: Ledger, plan: Plan, post: Ledger, own: set<string>,
    previous: Option<Instance>)
    requires Sincere(plan) && (plan.operation.Install? || plan.operation.Update?)
    requires Deployed(generates, pre, plan, post, own, previous)
    requires post.store == (pre.store - own) + SourceMap(plan.resources)
    requires own == if Active(pre.records, plan.instanceId) then pre.records[plan.instanceId].resources.Keys else {}
    ensures Turnover(pre, post, plan.instanceId, own, SourceMap(plan.resources))
    ensures forall n :: n in post.records[plan.instanceId].resources ==>
      ResourceIsRegular(generates, plan.instanceId, n, post.records[plan.instanceId].resources[n])
    ensures post.records[plan.instanceId].resources != map[]
  {
    hide HistoryIsRegular, SourceMap, Sincere, Marked, ClientAccepts, Placeable;
    SincereSources(plan, pre.store, own);
    var r := post.records[plan.instanceId];
    forall n | n in r.resources
      ensures ResourceIsRegular(generates, plan.instanceId, n, r.resources[n])
    {
      assert post.store[n] == SourceMap(plan.resources)[n];
      CutKeepsMark(plan.instanceId, post.store[n]);
    }
  }

  // What the client reads of a marked source still carries the mark.
  lemma CutKeepsMark(id: string, source: string)
    requires Catalogs.SafeId(id) && Marked(source, id)
    ensures Marked(Cut(source), id)
  {
  }

  // A sincere plan names at least one source, and all its sources carry its mark.
  lemma SincereSources(plan: Plan, store: map<string, string>, own: set<string>)
    requires Sincere(plan) && (plan.operation.Install? || plan.operation.Update?)
    requires Placeable(store, plan, own)
    ensures Catalogs.SafeId(plan.instanceId)
    ensures SourceMap(plan.resources) != map[]
    ensures forall n :: n in SourceMap(plan.resources) ==>
      n !in store - own && Marked(SourceMap(plan.resources)[n], plan.instanceId)
  {
    hide SourceMap, Marked, ClientAccepts;
    assert Names(plan.resources)[0] in SourceMap(plan.resources);
    forall n | n in SourceMap(plan.resources)
      ensures n !in store - own && Marked(SourceMap(plan.resources)[n], plan.instanceId)
    {
      var i :| 0 <= i < |plan.resources| && Names(plan.resources)[i] == n;
      SourceMapAt(plan.resources, i);
      assert plan.resources[i] in plan.resources;
    }
  }

  lemma HistoryGrows(r: Instance, s: Instance, now: nat)
    requires HistoryIsRegular(r) && r.removedAt.None?
    requires s.history == r.history + [Entry(now, Update)] || s.history == r.history + [Entry(now, Remove)]
    requires s.installedAt == r.installedAt && s.updatedAt == now
    requires s.removedAt == if s.history[|r.history|].operation == Remove then Some(now) else None
    ensures HistoryIsRegular(s)
  {
  }

  lemma InstallKeepsOwned(
    generates: (string, string) -> bool, ext: map<string, string>, pre: Ledger, plan: Plan, post: Ledger)
    requires Owned(generates, ext, pre) && Sincere(plan) && plan.operation.Install?
    requires Committed(generates, pre, plan, post) && !Active(pre.records, plan.instanceId)
    ensures Owned(generates, ext, post)
  {
    hide Owned, SourceMap, Deployed;
    assert pre.store - {} == pre.store;
    DeployedIsTurnover(generates, pre, plan, post, {}, None);
    DeployedIsNew(generates, pre, plan, post);
    TurnoverKeepsOwned(generates, ext, pre, post, plan.instanceId, {}, SourceMap(plan.resources));
  }

  lemma DeployedIsNew(generates: (string, string) -> bool, pre: Ledger, plan: Plan, post: Ledger)
    requires plan.operation.Install? && Deployed(generates, pre, plan, post, {}, None)
    ensures post.records[plan.instanceId].id == plan.instanceId && HistoryIsRegular(post.records[plan.instanceId])
  {
  }

  lemma UpdateKeepsOwned(
    generates: (string, string) -> bool, ext: map<string, string>, pre: Ledger, plan: Plan, post: Ledger)
    requires Owned(generates, ext, pre) && Sincere(plan) && plan.operation.Update?
    requires Committed(generates, pre, plan, post) && Active(pre.records, plan.instanceId)
    ensures Owned(generates, ext, post)
  {
    var id := plan.instanceId;
    assert RecordIsRegular(generates, id, pre.records[id]);
    hide Owned;
    var own := pre.records[id].resources.Keys;
    DeployedIsTurnover(generates, pre, plan, post, own, Some(pre.records[id]));
    HistoryGrows(pre.records[id], post.records[id], post.records[id].updatedAt);
    TurnoverKeepsOwned(generates, ext, pre, post, id, own, SourceMap(plan.resources));
  }

  lemma RemoveKeepsOwned(
    generates: (string, string) -> bool, ext: map<string, string>, pre: Ledger, plan: Plan, post: Ledger)
    requires Owned(generates, ext, pre) && plan.operation.Remove?
    requires Committed(generates, pre, plan, post) && Active(pre.records, plan.instanceId)
    ensures Owned(generates, ext, post)
  {
    var id := plan.instanceId;
    assert RecordIsRegular(generates, id, pre.records[id]);
    hide Owned, SourceMap, Deployed;
    RemovedIsTurnover(generates, pre, plan, post);
    HistoryGrows(pre.records[id], post.records[id], post.records[id].updatedAt);
    TurnoverKeepsOwned(generates, ext, pre, post, id, pre.records[id].resources.Keys, map[]);
  }

  lemma RemovedIsTurnover(generates: (string, string) -> bool, pre: Ledger, plan: Plan, post: Ledger)
    requires plan.operation.Remove? && Committed(generates, pre, plan, post) && Active(pre.records, plan.instanceId)
    requires pre.records[plan.instanceId].id == plan.instanceId
    ensures Turnover(pre, post, plan.instanceId, pre.records[plan.instanceId].resources.Keys, map[])
    ensures var was, now := pre.records[plan.instanceId], post.records[plan.instanceId];
      && now.id == was.id && now.resources == was.resources && now.installedAt == was.installedAt
      && now.removedAt == Some(now.updatedAt)
      && now.history == was.history + [Entry(now.updatedAt, Remove)]
  {
    hide SourceMap, Deployed;
    assert (pre.store - pre.records[plan.instanceId].resources.Keys) + map[] ==
      pre.store - pre.records[plan.instanceId].resources.Keys;
  }

  // ---- failures ----

  // The same records own sources that read the same, and nothing else is left open.
  lemma OwnedReadsAlike(generates: (string, string) -> bool, ext: map<string, string>, a: Ledger, b: Ledger)
    requires Owned(generates, ext, a) && b.records == a.records && ExternalsKept(ext, b.store)
    ensures Owned(generates, ext, b) <==> ReadsAlike(a.store, b.store)
  {
    hide RecordsRegular, NamesApart, OwnersDistinct, Cut, ClientAccepts;
    assert forall id, n :: Owns(b, id, n) <==> Owns(a, id, n);
    if ReadsAlike(a.store, b.store) {
      assert StoreCovered(ext, b) && OwnedLive(b) && OwnersDistinct(b) by {
        DistinctByRecords(a, b);
      }
    }
    if Owned(generates, ext, b) {
      OwnedNamesAreLive(generates, ext, a, b);
      OwnedNamesAreLive(generates, ext, b, a);
      forall n | n in a.store
        ensures n in b.store && Cut(a.store[n]) == Cut(b.store[n])
      {
      }
    }
  }

  lemma DistinctByRecords(a: Ledger, b: Ledger)
    requires a.records == b.records
    ensures OwnersDistinct(a) <==> OwnersDistinct(b)
  {
    assert forall id, n :: Owns(b, id, n) <==> Owns(a, id, n);
  }

  lemma OwnedNamesAreLive(generates: (string, string) -> bool, ext: map<string, string>, a: Ledger, b: Ledger)
    requires Owned(generates, ext, a) && Owned(generates, ext, b) && b.records == a.records
    ensures forall n :: n in a.store ==> n in b.store && Cut(a.store[n]) == Cut(b.store[n])
  {
    hide RecordsRegular, NamesApart, OwnersDistinct, Cut, ClientAccepts;
    forall n | n in a.store
      ensures n in b.store && Cut(a.store[n]) == Cut(b.store[n])
    {
      if n !in ext {
        var id :| Owns(a, id, n);
        assert Owns(b, id, n);
      }
    }
  }

  // No execution touches an external source, however it ends.
  lemma ExternalsSurvive(
    generates: (string, string) -> bool, ext: map<string, string>, pre: Ledger, plan: Plan, e: Option<Error>,
    post: Ledger)
    requires Owned(generates, ext, pre) && Executed(generates, pre, plan, e, post)
    requires e.Some? && e != Some(DocsFailed) && !plan.operation.Other?
    ensures ExternalsKept(ext, post.store) && post.records == pre.records
  {
    hide RecordsRegular, OwnedLive, OwnersDistinct, StoreCovered, SourceMap, Cut, ClientAccepts, DriftFree, Committed;
    var own := OwnNames(pre.records, plan);
    if e == Some(SaveFailed) && !plan.operation.Remove? {
      PlacedAreFree(plan, pre.store, own);
    }
    forall n | n in ext
      ensures n in post.store && post.store[n] == ext[n]
    {
      assert n in pre.store && n !in own;
    }
  }

  lemma PlacedAreFree(plan: Plan, store: map<string, string>, own: set<string>)
    requires Placeable(store, plan, own)
    ensures forall n :: n in SourceMap(plan.resources) ==> ClientAccepts(n) && n !in store - own
  {
    hide SourceMap, ClientAccepts;
    forall n | n in SourceMap(plan.resources)
      ensures ClientAccepts(n) && n !in store - own
    {
      var i :| 0 <= i < |plan.resources| && Names(plan.resources)[i] == n;
      assert plan.resources[i] in plan.resources;
    }
  }

  // A failed save leaves the invariant exactly when what the plan aims for reads as what was
  // there: the records stay, and they admit one store only.
  lemma SaveFailureIsOwnedIff(
    generates: (string, string) -> bool, ext: map<string, string>, pre: Ledger, plan: Plan, post: Ledger)
    requires Owned(generates, ext, pre) && Sincere(plan) && Executed(generates, pre, plan, Some(SaveFailed), post)
    ensures Owned(generates, ext, post) <==>
      ReadsAlike(pre.store, TargetStore(pre.store, plan, OwnNames(pre.records, plan)))
  {
    hide Owned, Sincere, SourceMap, DriftFree, Placeable, ReadsAlike, ExternalsKept;
    assert !plan.operation.Other? by {
      SincereIsKnown(plan);
    }
    ExternalsSurvive(generates, ext, pre, plan, Some(SaveFailed), post);
    OwnedReadsAlike(generates, ext, pre, post);
  }

  // So only an update may survive a failed save, one that aims for what is there.
  lemma OnlyUpdatesSurviveSaveFailure(
    generates: (string, string) -> bool, ext: map<string, string>, pre: Ledger, plan: Plan, post: Ledger)
    requires Owned(generates, ext, pre) && Sincere(plan) && Executed(generates, pre, plan, Some(SaveFailed), post)
    requires !plan.operation.Update?
    ensures !Owned(generates, ext, post)
  {
    hide SourceMap, DriftFree, ClientAccepts, ExternalsKept, NamesApart, OwnersDistinct, StoreCovered, Marked;
    SaveFailureIsOwnedIff(generates, ext, pre, plan, post);
    var own := OwnNames(pre.records, plan);
    if plan.operation.Install? {
      SincereSources(plan, pre.store, {});
      var n :| n in SourceMap(plan.resources);
      assert n !in pre.store - {} && n in post.store;
    } else {
      assert RecordIsRegular(generates, plan.instanceId, pre.records[plan.instanceId]);
      var n :| n in own;
      assert LiveDigest(pre.store, n) == pre.records[plan.instanceId].resources[n].sha by {
        MatchAt(pre.records[plan.instanceId], pre.store, n);
      }
      assert n in pre.store && n !in post.store;
    }
  }

  lemma MatchAt(record: Instance, store: map<string, string>, n: string)
    requires DriftFree(record, store) && n in record.resources
    ensures LiveDigest(store, n) == record.resources[n].sha
  {
  }

  lemma SincereIsKnown(plan: Plan)
    requires Sincere(plan)
    ensures !plan.operation.Other?
  {
  }

  // A failure that was undone leaves sources that read as before.
  lemma ReturnedReadsAlike(start: map<string, string>, own: set<string>, store: map<string, string>)
    requires Returned(start, own, store)
    ensures ReadsAlike(start, store)
  {
  }

  // With all sources below the client's limit, reading alike is being equal.
  lemma ReadsAlikeIsEqual(a: map<string, string>, b: map<string, string>)
    requires forall n :: n in a ==> |a[n]| < READ_LIMIT
    ensures ReadsAlike(a, b) <==> a == b
  {
  }

  // Any other failure of a sincere plan.
  lemma FailureIsOwnedIff(
    generates: (string, string) -> bool, ext: map<string, string>, pre: Ledger, plan: Plan, e: Option<Error>,
    post: Ledger)
    requires Owned(generates, ext, pre) && Sincere(plan) && Executed(generates, pre, plan, e, post) && !Through(e)
    ensures Owned(generates, ext, post) <==> (IsRollbackFailure(e) ==> ReadsAlike(pre.store, post.store))
  {
    hide Owned, Sincere, SourceMap, DriftFree, Placeable, ReadsAlike, Returned, ExternalsKept;
    SincereIsKnown(plan);
    ExternalsSurvive(generates, ext, pre, plan, e, post);
    OwnedReadsAlike(generates, ext, pre, post);
    if !IsRollbackFailure(e) {
      ReturnedReadsAlike(pre.store, OwnNames(pre.records, plan), post.store);
    }
  }

  // ---- one step ----

  lemma CommitIsOwnedIff(
    generates: (string, string) -> bool, ext: map<string, string>, pre: Ledger, plan: Plan, e: Option<Error>,
    post: Ledger)
    requires Owned(generates, ext, pre) && Sincere(plan) && Executed(generates, pre, plan, e, post)
    requires e.None? || e == Some(DocsFailed)
    ensures Owned(generates, ext, post) <==> (plan.operation.Install? ==> !Active(pre.records, plan.instanceId))
  {
    hide Owned, Sincere, Deployed, SourceMap, DriftFree;
    SincereIsKnown(plan);
    if plan.operation.Install? {
      InstallIsOwnedIffNotActive(generates, ext, pre, plan, post);
    } else if pre.records[plan.instanceId].removedAt.Some? {
      RemovedIsFrozen(generates, ext, pre, plan, e, post);
    } else if plan.operation.Update? {
      UpdateKeepsOwned(generates, ext, pre, plan, post);
    } else {
      RemoveKeepsOwned(generates, ext, pre, plan, post);
    }
  }

  // A step from an owned state leads to one exactly when it is clean.
  lemma StepIsOwnedIffClean(
    generates: (string, string) -> bool, ext: map<string, string>, pre: World, act: Act, post: World)
    requires Steps(generates, pre, act, post)
    requires Owned(generates, ext, pre.Books()) && PlansSincere(pre.plans)
    ensures Owned(generates, ext, post.Books()) <==> Clean(pre, act, post)
    ensures PlansSincere(post.plans)
  {
    hide Owned, Sincere, Executed, Served, Untouched, ReadsAlike, RanInTime;
    if act.Ran? {
      var plan := pre.plans[act.key];
      if act.e == Some(SaveFailed) {
        SaveFailureIsOwnedIff(generates, ext, pre.Books(), plan, post.Books());
      } else if Through(act.e) {
        CommitIsOwnedIff(generates, ext, pre.Books(), plan, act.e, post.Books());
      } else {
        FailureIsOwnedIff(generates, ext, pre.Books(), plan, act.e, post.Books());
      }
    }
  }

  // worlds[i] to worlds[i + 1] by acts[i].
  ghost predicate IsRun(generates: (string, string) -> bool, worlds: seq<World>, acts: seq<Act>) {
    && |worlds| == |acts| + 1
    && forall i :: 0 <= i < |acts| ==> Steps(generates, worlds[i], acts[i], worlds[i + 1])
  }

  ghost predicate IsCleanRun(generates: (string, string) -> bool, worlds: seq<World>, acts: seq<Act>) {
    IsRun(generates, worlds, acts) && forall i :: 0 <= i < |acts| ==> Clean(worlds[i], acts[i], worlds[i + 1])
  }

  ghost predicate BeginsOwned(generates: (string, string) -> bool, ext: map<string, string>, w: World) {
    Owned(generates, ext, w.Books()) && PlansSincere(w.plans)
  }

  // Every state of every clean run is owned.
  lemma {:induction false} CleanRunsStayOwned(
    generates: (string, string) -> bool, ext: map<string, string>, worlds: seq<World>, acts: seq<Act>, i: nat)
    requires IsCleanRun(generates, worlds, acts) && i < |worlds|
    requires BeginsOwned(generates, ext, worlds[0])
    ensures BeginsOwned(generates, ext, worlds[i])
  {
    hide Owned, Sincere, Steps, Clean;
    if i > 0 {
      CleanRunsStayOwned(generates, ext, worlds, acts, i - 1);
      StepIsOwnedIffClean(generates, ext, worlds[i - 1], acts[i - 1], worlds[i]);
    }
  }

  // And only of clean runs: a run is owned throughout if and only if each of its steps is
  // clean.
  lemma {:induction false} OwnedRunsAreTheCleanOnes(
    generates: (string, string) -> bool, ext: map<string, string>, worlds: seq<World>, acts: seq<Act>)
    requires IsRun(generates, worlds, acts) && BeginsOwned(generates, ext, worlds[0])
    ensures (forall i :: 0 <= i < |worlds| ==> Owned(generates, ext, worlds[i].Books())) <==>
      IsCleanRun(generates, worlds, acts)
  {
    hide Owned, Sincere, Steps, Clean;
    if IsCleanRun(generates, worlds, acts) {
      forall i | 0 <= i < |worlds|
        ensures Owned(generates, ext, worlds[i].Books())
      {
        CleanRunsStayOwned(generates, ext, worlds, acts, i);
      }
    } else if forall i :: 0 <= i < |worlds| ==> Owned(generates, ext, worlds[i].Books()) {
      forall i | 0 <= i < |acts|
        ensures Clean(worlds[i], acts[i], worlds[i + 1])
      {
        RunsKeepPlansSincere(generates, worlds, acts, i);
        assert Owned(generates, ext, worlds[i].Books()) && Owned(generates, ext, worlds[i + 1].Books());
        StepIsOwnedIffClean(generates, ext, worlds[i], acts[i], worlds[i + 1]);
      }
      assert false;
    }
  }

  lemma {:induction false} RunsKeepPlansSincere(
    generates: (string, string) -> bool, worlds: seq<World>, acts: seq<Act>, i: nat)
    requires IsRun(generates, worlds, acts) && PlansSincere(worlds[0].plans) && i < |worlds|
    ensures PlansSincere(worlds[i].plans)
  {
    hide Sincere, Executed, Served, Untouched, RanInTime;
    if i > 0 {
      RunsKeepPlansSincere(generates, worlds, acts, i - 1);
      assert Steps(generates, worlds[i - 1], acts[i - 1], worlds[i]);
    }
  }

  // ---- consequences ----

  // From the empty engine on any machine, every clean run stays owned.
  lemma EveryCleanRunIsOwned(
    generates: (string, string) -> bool, ext: map<string, string>, worlds: seq<World>, acts: seq<Act>, i: nat)
    requires IsCleanRun(generates, worlds, acts) && i < |worlds|
    requires worlds[0].Books() == Ledger(ext, map[]) && worlds[0].plans == map[]
    ensures Owned(generates, ext, worlds[i].Books())
  {
    EmptyIsOwned(generates, ext);
    CleanRunsStayOwned(generates, ext, worlds, acts, i);
  }

  // The hypothesis about installs is exactly what is needed: an install that goes through
  // keeps the invariant if and only if its instance was not active. Over an active one it
  // can only go through under names the record does not have, and then orphans those.
  lemma InstallIsOwnedIffNotActive(
    generates: (string, string) -> bool, ext: map<string, string>, pre: Ledger, plan: Plan, post: Ledger)
    requires Owned(generates, ext, pre) && Sincere(plan) && plan.operation.Install?
    requires Committed(generates, pre, plan, post)
    ensures Owned(generates, ext, post) <==> !Active(pre.records, plan.instanceId)
  {
    var id := plan.instanceId;
    if Active(pre.records, id) {
      assert RecordIsRegular(generates, id, pre.records[id]);
      var n :| n in pre.records[id].resources;
      hide RecordsRegular, SourceMap, RecordIsRegular;
      InstallOverActiveOrphans(generates, ext, pre, plan, post, n);
    } else {
      InstallKeepsOwned(generates, ext, pre, plan, post);
    }
  }

  // A source the active record owned stays in the store and belongs to no one.
  lemma InstallOverActiveOrphans(
    generates: (string, string) -> bool, ext: map<string, string>, pre: Ledger, plan: Plan, post: Ledger, n: string)
    requires OwnedLive(pre) && OwnersDistinct(pre) && NamesApart(ext, pre.records)
    requires plan.operation.Install? && Committed(generates, pre, plan, post)
    requires Owns(pre, plan.instanceId, n)
    ensures n in post.store && n !in ext && forall a :: !Owns(post, a, n)
    ensures !StoreCovered(ext, post)
  {
    hide SourceMap, OwnedLive, OwnersDistinct, ClientAccepts;
    var names := NameSet(Names(plan.resources));
    assert n in pre.store by {
      LiveAt(pre, plan.instanceId, n);
    }
    assert pre.store - {} == pre.store;
    if n in names {
      FreshNamesAreNew(plan.resources, pre.store, n);
      assert false;
    }
    forall a
      ensures !Owns(post, a, n)
    {
      if a != plan.instanceId && Owns(pre, a, n) {
        OneOwner(pre, a, plan.instanceId, n);
        assert false;
      }
    }
  }

  lemma LiveAt(l: Ledger, id: string, n: string)
    requires OwnedLive(l) && Owns(l, id, n)
    ensures n in l.store
  {
  }

  lemma OneOwner(l: Ledger, a: string, b: string, n: string)
    requires OwnersDistinct(l) && Owns(l, a, n) && Owns(l, b, n)
    ensures a == b
  {
  }

  lemma FreshNamesAreNew(rs: seq<Rendered>, store: map<string, string>, n: string)
    requires n in NameSet(Names(rs)) && forall r :: r in rs ==> r.name !in store
    ensures n !in store
  {
    var i :| 0 <= i < |rs| && Names(rs)[i] == n;
    assert rs[i] in rs;
  }

  // No later update or remove of the instance gets through, or changes anything.
  ghost predicate LockedOut(generates: (string, string) -> bool, l: Ledger, id: string) {
    forall later: Plan, e: Option<Error>, after: Ledger ::
      later.instanceId == id && !later.operation.Install? && Executed(generates, l, later, e, after) ==>
        !Through(e) && after == l
  }

  // That is so exactly when the instance has no record, or a baseline that does not match.
  lemma LockedOutIff(generates: (string, string) -> bool, l: Ledger, id: string)
    ensures LockedOut(generates, l, id) <==> !(id in l.records && DriftFree(l.records[id], l.store))
  {
    hide DriftFree, Finished;
    if id in l.records && DriftFree(l.records[id], l.store) {
      var later := Plan("", NoDigest, Remove, "", "", id, map[], [], [], [], 0, 0);
      var after := FittingPlansCanCommit(generates, l, later, 0);
      assert Executed(generates, l, later, None, after) by {
        CommittedIsFinished(generates, l, later, after);
      }
    }
  }

  lemma CommittedIsFinished(generates: (string, string) -> bool, pre: Ledger, plan: Plan, post: Ledger)
    requires Committed(generates, pre, plan, post)
    ensures Finished(generates, pre, plan, None, post)
  {
  }

  // When the record cannot be saved, the new sources stay under the old record, and the
  // instance is locked out exactly when a baseline of that record does not match what the
  // plan aims for.
  lemma SaveFailureLocksOut(generates: (string, string) -> bool, pre: Ledger, plan: Plan, post: Ledger)
    requires Executed(generates, pre, plan, Some(SaveFailed), post)
    ensures var id := plan.instanceId;
      LockedOut(generates, post, id) <==>
        !(id in pre.records &&
          DriftFree(pre.records[id], TargetStore(pre.store, plan, OwnNames(pre.records, plan))))
  {
    LockedOutIff(generates, post, plan.instanceId);
  }

  // Installing and then removing an instance gives the source map back as it was.
  lemma InstallThenRemoveIsIdentity(
    generates: (string, string) -> bool, pre: Ledger, install: Plan, mid: Ledger, remove: Plan, post: Ledger)
    requires install.operation.Install? && remove.operation.Remove? && install.instanceId == remove.instanceId
    requires Committed(generates, pre, install, mid) && Committed(generates, mid, remove, post)
    ensures post.store == pre.store
  {
    var names := NameSet(Names(install.resources));
    assert mid.records[install.instanceId].resources.Keys == names;
    forall n | n in names
      ensures n !in pre.store
    {
      var i :| 0 <= i < |install.resources| && Names(install.resources)[i] == n;
      assert install.resources[i] in install.resources;
      assert n !in pre.store - {};
    }
    assert mid.store == pre.store + SourceMap(install.resources);
    assert post.store == mid.store - names;
  }

  // Updating twice to the same sources is updating once, whatever else is in the store.
  lemma UpdateTwiceIsOnce(
    generates: (string, string) -> bool, pre: Ledger, first: Plan, mid: Ledger, second: Plan, post: Ledger)
    requires first.operation.Update? && second.operation.Update? && first.instanceId == second.instanceId
    requires SourceMap(first.resources) == SourceMap(second.resources)
    requires Committed(generates, pre, first, mid) && Committed(generates, mid, second, post)
    ensures post.store == mid.store
  {
    hide SourceMap;
    var m := SourceMap(first.resources);
    assert mid.records[first.instanceId].resources.Keys == m.Keys;
    Overwrite(pre.store - OwnNames(pre.records, first), m);
  }

  lemma Overwrite(a: map<string, string>, b: map<string, string>)
    ensures ((a + b) - b.Keys) + b == a + b
  {
  }

  // ---- runs exist ----

  // Any fitting plan has an outcome in which it took full effect, so the statements above
  // are about something.
  lemma FittingPlansCanCommit(generates: (string, string) -> bool, pre: Ledger, plan: Plan, now: nat)
    returns (post: Ledger)
    requires plan.operation.Update? || plan.operation.Remove? ==> plan.instanceId in pre.records
    requires PlanFits(generates, pre.store, plan, OwnNames(pre.records, plan))
    ensures Committed(generates, pre, plan, post)
    ensures plan.operation.Install? ==> post.records[plan.instanceId].updatedAt == now
  {
    hide SourceMap, Deployed, PlanFits;
    var id := plan.instanceId;
    match plan.operation {
      case Install =>
        assert pre.store - {} == pre.store;
        post := DeploymentExists(generates, pre, plan, {}, None, now);
      case Update =>
        post := DeploymentExists(generates, pre, plan, pre.records[id].resources.Keys, Some(pre.records[id]), now);
      case Remove =>
        var r := pre.records[id];
        post := Ledger(pre.store - r.resources.Keys, pre.records[r.id := r.(
          removedAt := Some(now), updatedAt := now, history := r.history + [Entry(now, Remove)])]);
      case Other(_) => post := pre;
    }
  }

  lemma DeploymentExists(
    generates: (string, string) -> bool, pre: Ledger, plan: Plan, own: set<string>, previous: Option<Instance>,
    now: nat)
    returns (post: Ledger)
    requires PlanFits(generates, pre.store, plan, own)
    ensures post.store == (pre.store - own) + SourceMap(plan.resources)
    ensures Deployed(generates, pre, plan, post, own, previous)
    ensures plan.instanceId in post.records && post.records[plan.instanceId].updatedAt == now
  {
    hide SourceMap, ClientAccepts, Cut;
    var m := SourceMap(plan.resources);
    PlacedAreFree(plan, pre.store, own);
    var resources := map n | n in m ::
      ResourceState(n, UnitFor(generates, n, m[n]), Sha256(Cut(m[n])), Cut(m[n]));
    var record := Instance(
      plan.instanceId, plan.appId, plan.catalogVersion, plan.parameters, resources, plan.directories,
      if previous.Some? then previous.value.installedAt else now, now, None,
      (if previous.Some? then previous.value.history else []) + [Entry(now, plan.operation)]);
    post := Ledger((pre.store - own) + m, pre.records[plan.instanceId := record]);
  }

  // ---- removed instances over whole runs ----

  ghost predicate InstallsInstance(w: World, act: Act, id: string) {
    act.Ran? && act.key in w.plans && w.plans[act.key].operation.Install? && w.plans[act.key].instanceId == id
  }

  lemma RemovedStepIsFrozen(
    generates: (string, string) -> bool, ext: map<string, string>, pre: World, act: Act, post: World, id: string)
    requires Steps(generates, pre, act, post) && Clean(pre, act, post) && Owned(generates, ext, pre.Books())
    requires id in pre.view.records && pre.view.records[id].removedAt.Some?
    requires !InstallsInstance(pre, act, id)
    ensures id in post.view.records && post.view.records[id] == pre.view.records[id]
  {
    hide Served, Untouched, DriftFree, ReadsAlike, TargetStore, OwnNames, Returned, Placeable, Captured;
    hide HistoryIsRegular;
    hide ExternalsKept, NamesApart, OwnedLive, OwnersDistinct, StoreCovered, ResourceIsRegular;
    if act.Ran? {
      var plan := pre.plans[act.key];
      if plan.instanceId == id {
        RemovedIsFrozen(generates, ext, pre.Books(), plan, act.e, post.Books());
      } else if plan.instanceId in pre.view.records {
        assert RecordIsRegular(generates, plan.instanceId, pre.view.records[plan.instanceId]);
      }
    }
  }

  // Until it is installed again, the record of a removed instance never changes.
  lemma {:induction false} RemovedUntilReinstalled(
    generates: (string, string) -> bool, ext: map<string, string>, worlds: seq<World>, acts: seq<Act>, i: nat, j: nat,
    id: string)
    requires IsCleanRun(generates, worlds, acts) && i <= j < |worlds|
    requires BeginsOwned(generates, ext, worlds[0])
    requires id in worlds[i].view.records && worlds[i].view.records[id].removedAt.Some?
    requires forall k :: i <= k < j ==> !InstallsInstance(worlds[k], acts[k], id)
    ensures id in worlds[j].view.records && worlds[j].view.records[id] == worlds[i].view.records[id]
    decreases j - i
  {
    if i < j {
      CleanRunsStayOwned(generates, ext, worlds, acts, i);
      assert Steps(generates, worlds[i], acts[i], worlds[i + 1]) && Clean(worlds[i], acts[i], worlds[i + 1]);
      RemovedStepIsFrozen(generates, ext, worlds[i], acts[i], worlds[i + 1], id);
      RemovedUntilReinstalled(generates, ext, worlds, acts, i + 1, j, id);
    }
  }

  // ---- time ----

  // A record's history is in the order of its dates, none of them in the future.
  ghost predicate HistoryIsDated(r: Instance, now: nat) {
    && (forall i, j :: 0 <= i < j < |r.history| ==> r.history[i].at <= r.history[j].at)
    && (forall i :: 0 <= i < |r.history| ==> r.history[i].at <= now)
    && r.updatedAt <= now
  }

  // Every stored plan was made in the past and runs out fifteen minutes later.
  ghost predicate PlanIsDated(plan: Plan, now: nat) {
    plan.createdAt <= now && plan.expiresAt == plan.createdAt + FIFTEEN_MINUTES
  }

  ghost predicate InTime(w: World) {
    && (forall id :: id in w.view.records ==> HistoryIsDated(w.view.records[id], w.clock))
    && (forall k :: k in w.plans ==> PlanIsDated(w.plans[k], w.clock))
  }

  lemma LaterIsDated(r: Instance, before: nat, now: nat)
    requires HistoryIsDated(r, before) && before <= now
    ensures HistoryIsDated(r, now)
  {
  }

  lemma GrownIsDated(history: seq<HistoryEntry>, r: Instance, before: nat, now: nat)
    requires forall i, j :: 0 <= i < j < |history| ==> history[i].at <= history[j].at
    requires forall i :: 0 <= i < |history| ==> history[i].at <= before
    requires r.history != [] && r.history[..|r.history| - 1] == history
    requires before <= r.updatedAt == r.history[|r.history| - 1].at <= now
    ensures HistoryIsDated(r, now)
  {
    forall i | 0 <= i < |history|
      ensures r.history[i].at <= before
    {
      assert r.history[i] == history[i];
    }
    forall i, j | 0 <= i < j < |history|
      ensures r.history[i].at <= r.history[j].at
    {
      assert r.history[i] == history[i] && r.history[j] == history[j];
    }
  }

  // What an execution does to the records: nothing, or it dates one, adding to what there was.
  lemma ExecutionDatesOne(
    generates: (string, string) -> bool, pre: World, plan: Plan, e: Option<Error>, post: World, id: string)
    requires Executed(generates, pre.Books(), plan, e, post.Books()) && id in post.view.records
    requires Dated(ContextOf(generates, pre.view, plan).id, plan, e, post.view.records, pre.clock, post.clock)
    requires InTime(pre) && pre.clock <= post.clock
    ensures HistoryIsDated(post.view.records[id], post.clock)
  {
    hide Captured, Placeable, DriftFree, Returned, TargetStore, Controlled;
    if id in pre.view.records && post.view.records[id] == pre.view.records[id] {
      LaterIsDated(pre.view.records[id], pre.clock, post.clock);
    } else {
      var r, previous := post.view.records[id], Known(pre.view.records, plan.instanceId);
      var history := if plan.operation.Install? then [] else previous.value.history;
      assert r.history == history + [Entry(r.updatedAt, plan.operation)];
      GrownIsDated(history, r, pre.clock, post.clock);
    }
  }

  lemma StepKeepsTime(generates: (string, string) -> bool, pre: World, act: Act, post: World)
    requires Steps(generates, pre, act, post) && InTime(pre)
    ensures InTime(post) && pre.clock <= post.clock
  {
    hide Executed, Served, Untouched, HistoryIsDated, LetThrough, Current, Dated, ContextOf;
    forall id | id in post.view.records
      ensures HistoryIsDated(post.view.records[id], post.clock)
    {
      if act.Ran? {
        ExecutionDatesOne(generates, pre, pre.plans[act.key], act.e, post, id);
      } else {
        LaterIsDated(pre.view.records[id], pre.clock, post.clock);
      }
    }
  }

  // In every run, clean or not, histories stay in order and plans expire fifteen minutes
  // after they were made.
  lemma {:induction false} RunsStayInTime(
    generates: (string, string) -> bool, worlds: seq<World>, acts: seq<Act>, i: nat)
    requires IsRun(generates, worlds, acts) && InTime(worlds[0]) && i < |worlds|
    ensures InTime(worlds[i]) && worlds[0].clock <= worlds[i].clock
  {
    hide Steps, InTime;
    if i > 0 {
      RunsStayInTime(generates, worlds, acts, i - 1);
      StepKeepsTime(generates, worlds[i - 1], acts[i - 1], worlds[i]);
    }
  }

  // A stored plan that was not there from the start was planned on the way.
  lemma {:induction false} PlannedOnTheWay(
    generates: (string, string) -> bool, worlds: seq<World>, acts: seq<Act>, i: nat, key: string) returns (j: nat)
    requires IsRun(generates, worlds, acts) && i < |worlds| && worlds[0].plans == map[] && key in worlds[i].plans
    ensures j < i && acts[j] == Planned(worlds[i].plans[key])
    ensures worlds[j].clock <= worlds[i].plans[key].createdAt <= worlds[j + 1].clock
  {
    hide Executed, Served, Untouched, Sincere, RanInTime;
    assert Steps(generates, worlds[i - 1], acts[i - 1], worlds[i]);
    if acts[i - 1] == Planned(worlds[i].plans[key]) {
      j := i - 1;
    } else {
      j := PlannedOnTheWay(generates, worlds, acts, i - 1, key);
    }
  }

  // A plan that does anything, or is reported to have gone through, was planned on the way,
  // and began to run no more than fifteen minutes after that.
  lemma {:induction false} NoStalePlanRuns(
    generates: (string, string) -> bool, worlds: seq<World>, acts: seq<Act>, i: nat) returns (j: nat)
    requires IsRun(generates, worlds, acts) && i < |acts| && worlds[0].plans == map[] && InTime(worlds[0])
    requires acts[i].Ran? && (acts[i].e.None? || worlds[i + 1].view != worlds[i].view)
    ensures acts[i].key in worlds[i].plans && var plan := worlds[i].plans[acts[i].key];
      && j < i && acts[j] == Planned(plan)
      && worlds[j].clock <= plan.createdAt <= worlds[j + 1].clock && worlds[i].clock <= plan.createdAt + 15 * 60
  {
    hide Executed, Served, Untouched, ContextOf, LetThrough;
    assert Steps(generates, worlds[i], acts[i], worlds[i + 1]);
    RunsStayInTime(generates, worlds, acts, i);
    j := PlannedOnTheWay(generates, worlds, acts, i, acts[i].key);
  }

  // ---- what the journal of one execution says ----

  // In every state an execution passes through, failed rollbacks included, a source that is
  // no longer what it was at the start belonged to the plan's record and matched its
  // baseline; an install leaves every earlier source alone.
  lemma {:induction false} NothingForeignIsLost(
    generates: (string, string) -> bool, start: View, plan: Plan, tr: seq<Step>, now: View, v: View, n: string)
    requires Good(ContextOf(generates, start, plan), tr) && Linked(generates, start, tr, now)
    requires Passes(start, tr, now, v)
    requires LetThrough(plan, start.records, start.store)
    requires n in start.store && (n !in v.store || v.store[n] != start.store[n])
    ensures !plan.operation.Install? && plan.instanceId in start.records
    ensures var record := start.records[plan.instanceId];
      n in record.resources && record.resources[n].sha == LiveDigest(start.store, n)
  {
    hide Passes, Linked, Good, Cut, ClientAccepts, SourceMap, Controlled;
    StatesFit(ContextOf(generates, start, plan), generates, tr, now, v);
  }

  // Nor is any unit touched that is neither on that record nor named by the plan.
  lemma {:induction false} ForeignUnitsAreLeftAlone(
    generates: (string, string) -> bool, start: View, plan: Plan, tr: seq<Step>, now: View, v: View, u: Unit)
    requires Good(ContextOf(generates, start, plan), tr) && Linked(generates, start, tr, now)
    requires Passes(start, tr, now, v)
    requires !SameAt(start.running, v.running, u)
    ensures
      || (!plan.operation.Install? && u in UnitsUnder(start.records, plan.instanceId))
      || (!plan.operation.Remove? && u.Service? && u.name in Names(plan.resources))
  {
    hide Passes, Linked, Good, Cut, ClientAccepts, SourceMap, Controlled, UnitsOf;
    var c := ContextOf(generates, start, plan);
    StatesFit(c, generates, tr, now, v);
    if u !in c.mine {
      var p :| p in c.offers && u == Service(p.0);
      var i :| 0 <= i < |plan.resources| && p == (plan.resources[i].name, plan.resources[i].content);
      assert Names(plan.resources)[i] == u.name;
    }
  }

  // Stopping the agent in any state leaves every record as it was or telling the truth,
  // and a later update or remove from there changes nothing unless its baselines match.
  lemma {:induction false} StoppingAnywhereIsHonest(
    generates: (string, string) -> bool, start: View, plan: Plan, tr: seq<Step>, now: View, v: View, id: string,
    later: Plan, e: Option<Error>, post: Ledger)
    requires Good(ContextOf(generates, start, plan), tr) && Linked(generates, start, tr, now)
    requires Passes(start, tr, now, v) && id in v.records
    requires later.instanceId == id && !later.operation.Install?
    requires Executed(generates, Ledger(v.store, v.records), later, e, post)
    ensures (id in start.records && v.records[id] == start.records[id]) || Honest(v.records[id], v.store)
    ensures post == Ledger(v.store, v.records) || DriftFree(v.records[id], v.store)
  {
    hide Passes, Linked, Good, Finished, DriftFree;
    StatesFit(ContextOf(generates, start, plan), generates, tr, now, v);
  }

  ghost predicate UnderControl(generates: (string, string) -> bool, start: View, plan: Plan) {
    && plan.instanceId in start.records
    && Controlled(generates, start, start.records[plan.instanceId], ContextOf(generates, start, plan).offers)
  }

  // systemd never reads a half-replaced set: going forward a reload sees the new sources, in
  // rollback the old ones unless an earlier source call of the rollback failed. And no
  // unforced removal hits a running unit when no earlier stop failed.
  lemma {:induction false} ReloadsAndRemovalsAreSafe(
    generates: (string, string) -> bool, start: View, plan: Plan, tr: seq<Step>, now: View, k: nat)
    requires Good(ContextOf(generates, start, plan), tr) && Linked(generates, start, tr, now) && k < |tr|
    ensures Passes(start, tr, now, tr[k].before)
    ensures tr[k].call.Reload? && tr[k].phase.Forward? ==>
      tr[k].before.store == TargetStore(start.store, plan, OwnNames(start.records, plan))
    ensures tr[k].call.Reload? && tr[k].phase.Rollback? && RollbackSourcesOk(tr[..k]) ==>
      Returned(start.store, OwnNames(start.records, plan), tr[k].before.store)
    ensures UnderControl(generates, start, plan) && StopsOk(tr[..k]) ==>
      tr[k].call.RemoveSource? && !tr[k].call.force ==> Service(tr[k].call.name) !in tr[k].before.running
  {
    GoodEverywhere(ContextOf(generates, start, plan), tr, k);
    LinkedAt(generates, start, tr, now, k);
  }
}

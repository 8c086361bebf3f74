// Whole runs once more: where systemd stands between executions.
//
// As long as no rollback fails, a clean run keeps systemd in step with the source store, and
// from a state in step every update and remove works on units under the engine's control. So
// what an execution promises for units under control, it promises throughout such a run.
module Service {
  import opened QuadletNames
  import opened Model
  import opened Hosts
  import opened Journal
  import opened Moves
  import opened Engines
  import opened Planning
  import opened Ownership

  // The definitions are the stored sources, and every running unit runs the one now stored.
  ghost predicate UpToDate(generates: (string, string) -> bool, v: View) {
    v.loaded == v.store && forall u :: u in v.running ==> Fresh(generates, v.loaded, v.running, u)
  }

  // A running unit whose source an instance owns is on that instance's record.
  ghost predicate OnRecord(v: View) {
    forall id, n :: Owns(Ledger(v.store, v.records), id, n) && Service(n) in v.running ==>
      v.records[id].resources[n].unit == Service(n)
  }

  ghost predicate InStep(generates: (string, string) -> bool, v: View) {
    UpToDate(generates, v) && OnRecord(v)
  }

  // What a record says of its units.
  lemma UnitOnRecord(
    generates: (string, string) -> bool, ext: map<string, string>, l: Ledger, id: string, u: Unit)
    requires Owned(generates, ext, l) && id in l.records && u in UnitsUnder(l.records, id)
    ensures u.Service? && u.name in l.records[id].resources && l.records[id].resources[u.name].unit == u
  {
    hide HistoryIsRegular, ExternalsKept, NamesApart, OwnedLive, OwnersDistinct, StoreCovered;
    assert RecordIsRegular(generates, id, l.records[id]);
    var n :| n in l.records[id].resources && l.records[id].resources[n].unit == u && u != NoUnit;
    assert ResourceIsRegular(generates, id, n, l.records[id].resources[n]);
  }

  // A running unit that is none of the record's own belongs to a source that stays.
  lemma OthersSourceStays(
    generates: (string, string) -> bool, ext: map<string, string>, v: View, plan: Plan, u: Unit)
    requires Owned(generates, ext, Ledger(v.store, v.records)) && InStep(generates, v)
    requires plan.operation.Install? || Active(v.records, plan.instanceId)
    requires u in v.running && u !in ContextOf(generates, v, plan).mine
    ensures u.Service? && u.name in v.store && u.name !in OwnNames(v.records, plan)
    ensures v.running[u] == v.store[u.name] && generates(u.name, v.store[u.name])
  {
    hide Owned, Controlled, TargetStore, Offers;
    assert Fresh(generates, v.loaded, v.running, u);
    OwnNameIsMine(generates, v, plan, u.name);
  }

  lemma OwnNameIsMine(generates: (string, string) -> bool, v: View, plan: Plan, n: string)
    requires InStep(generates, v) && (plan.operation.Install? || Active(v.records, plan.instanceId))
    requires Service(n) in v.running
    ensures n in OwnNames(v.records, plan) ==> Service(n) in ContextOf(generates, v, plan).mine
  {
    hide Controlled, TargetStore, Offers;
    assert n in OwnNames(v.records, plan) ==> Owns(Ledger(v.store, v.records), plan.instanceId, n);
  }

  // ---- the three ways an execution ends ----

  // Foreign sources stay when a plan goes through.
  lemma TargetKeepsForeign(store: map<string, string>, plan: Plan, own: set<string>, n: string)
    requires plan.operation.Install? || plan.operation.Update? ==> Placeable(store, plan, own)
    requires n in store && n !in own
    ensures n in TargetStore(store, plan, own) && TargetStore(store, plan, own)[n] == store[n]
  {
    hide SourceMap, ClientAccepts;
    if plan.operation.Install? || plan.operation.Update? {
      PlacedAreFree(plan, store, own);
    }
  }

  lemma ThroughIsPlaced(generates: (string, string) -> bool, pre: Ledger, plan: Plan, e: Option<Error>, post: Ledger)
    requires Finished(generates, pre, plan, e, post) && Through(e)
    ensures post.store == TargetStore(pre.store, plan, OwnNames(pre.records, plan))
    ensures plan.operation.Install? || plan.operation.Update? ==>
      Placeable(pre.store, plan, OwnNames(pre.records, plan))
  {
    hide SourceMap, Placeable, Captured;
  }

  lemma ThroughIsUpToDate(
    generates: (string, string) -> bool, ext: map<string, string>, pre: View, plan: Plan, e: Option<Error>, post: View)
    requires Owned(generates, ext, Ledger(pre.store, pre.records)) && InStep(generates, pre)
    requires plan.operation.Install? || Active(pre.records, plan.instanceId)
    requires Finished(generates, Ledger(pre.store, pre.records), plan, e, Ledger(post.store, post.records))
    requires Through(e)
    requires InService(generates, ContextOf(generates, pre, plan), plan, post)
    ensures UpToDate(generates, post)
  {
    hide Owned, Finished, Controlled, TargetStore, Offers, UnitsOf, InStep, Placeable, OwnNames;
    ThroughIsPlaced(generates, Ledger(pre.store, pre.records), plan, e, Ledger(post.store, post.records));
    forall u | u in post.running
      ensures Fresh(generates, post.loaded, post.running, u)
    {
      if !Fresh(generates, post.loaded, post.running, u) {
        OthersSourceStays(generates, ext, pre, plan, u);
        TargetKeepsForeign(pre.store, plan, OwnNames(pre.records, plan), u.name);
      }
    }
  }

  lemma UndoneIsUpToDate(
    generates: (string, string) -> bool, ext: map<string, string>, pre: View, plan: Plan, post: View)
    requires Owned(generates, ext, Ledger(pre.store, pre.records)) && InStep(generates, pre)
    requires plan.operation.Install? || Active(pre.records, plan.instanceId)
    requires Returned(pre.store, OwnNames(pre.records, plan), post.store)
    requires BackInService(generates, ContextOf(generates, pre, plan), post)
    ensures UpToDate(generates, post)
  {
    hide Owned, Controlled, TargetStore, Offers, UnitsOf, InStep, OwnNames, Cut;
    forall u | u in post.running
      ensures Fresh(generates, post.loaded, post.running, u)
    {
      if u !in ContextOf(generates, pre, plan).mine {
        OthersSourceStays(generates, ext, pre, plan, u);
      }
    }
  }

  // ---- units stay on record ----

  // A unit that was running and is no own one stays where its owner's record says.
  lemma OwnerKept(
    generates: (string, string) -> bool, ext: map<string, string>, pre: View, plan: Plan, post: View, id: string,
    n: string)
    requires Owned(generates, ext, Ledger(pre.store, pre.records)) && InStep(generates, pre)
    requires plan.operation.Install? || Active(pre.records, plan.instanceId)
    requires Owned(generates, ext, Ledger(post.store, post.records))
    requires Owns(Ledger(post.store, post.records), id, n) && Service(n) in pre.running
    requires id in pre.records && post.records[id] == pre.records[id]
    ensures post.records[id].resources[n].unit == Service(n)
  {
    hide Owned;
    assert Owns(Ledger(pre.store, pre.records), id, n);
  }

  // What a plan that went through deployed is on record as systemd generates it.
  lemma DeployedOnRecord(
    generates: (string, string) -> bool, pre: Ledger, plan: Plan, post: View, own: set<string>,
    previous: Option<Instance>, n: string)
    requires Deployed(generates, pre, plan, Ledger(post.store, post.records), own, previous)
    requires n in post.records[plan.instanceId].resources && post.loaded == post.store
    requires Fresh(generates, post.loaded, post.running, Service(n))
    ensures post.records[plan.instanceId].resources[n].unit == Service(n)
  {
    hide Placeable, ClientAccepts, Cut;
  }

  lemma CommitKeepsOnRecord(
    generates: (string, string) -> bool, ext: map<string, string>, pre: View, plan: Plan, post: View)
    requires Owned(generates, ext, Ledger(pre.store, pre.records)) && InStep(generates, pre)
    requires !plan.operation.Other? && (plan.operation.Install? || Active(pre.records, plan.instanceId))
    requires Committed(generates, Ledger(pre.store, pre.records), plan, Ledger(post.store, post.records))
    requires Owned(generates, ext, Ledger(post.store, post.records)) && UpToDate(generates, post)
    requires InService(generates, ContextOf(generates, pre, plan), plan, post)
    ensures OnRecord(post)
  {
    var l, m := Ledger(pre.store, pre.records), Ledger(post.store, post.records);
    forall id, n | Owns(m, id, n) && Service(n) in post.running
      ensures post.records[id].resources[n].unit == Service(n)
    {
      assert Fresh(generates, post.loaded, post.running, Service(n));
      RemovedOwnsNothing(generates, ext, l, plan, m);
      if id == plan.instanceId {
        OwnRecordAfter(generates, ext, pre, plan, post, n);
      } else {
        OtherRecordAfter(generates, ext, pre, plan, post, id, n);
      }
    }
  }

  lemma RemovedOwnsNothing(
    generates: (string, string) -> bool, ext: map<string, string>, pre: Ledger, plan: Plan, post: Ledger)
    requires Owned(generates, ext, pre) && Committed(generates, pre, plan, post)
    ensures plan.operation.Remove? ==> !Active(post.records, plan.instanceId)
  {
    if plan.operation.Remove? {
      assert RecordIsRegular(generates, plan.instanceId, pre.records[plan.instanceId]);
    }
  }

  lemma OwnRecordAfter(
    generates: (string, string) -> bool, ext: map<string, string>, pre: View, plan: Plan, post: View, n: string)
    requires plan.operation.Install? || (plan.operation.Update? && Active(pre.records, plan.instanceId))
    requires Committed(generates, Ledger(pre.store, pre.records), plan, Ledger(post.store, post.records))
    requires Owns(Ledger(post.store, post.records), plan.instanceId, n) && post.loaded == post.store
    requires Fresh(generates, post.loaded, post.running, Service(n))
    ensures post.records[plan.instanceId].resources[n].unit == Service(n)
  {
    hide Deployed, Captured, TargetStore, SourceMap;
    var l, id := Ledger(pre.store, pre.records), plan.instanceId;
    if plan.operation.Install? {
      DeployedOnRecord(generates, l, plan, post, {}, None, n);
    } else {
      DeployedOnRecord(generates, l, plan, post, OwnNames(l.records, plan), Some(l.records[id]), n);
    }
  }

  // The records of other instances, and what they own, are as they were.
  lemma OtherRecordAfter(
    generates: (string, string) -> bool, ext: map<string, string>, pre: View, plan: Plan, post: View, id: string,
    n: string)
    requires Owned(generates, ext, Ledger(pre.store, pre.records)) && InStep(generates, pre)
    requires !plan.operation.Other? && (plan.operation.Install? || Active(pre.records, plan.instanceId))
    requires Committed(generates, Ledger(pre.store, pre.records), plan, Ledger(post.store, post.records))
    requires Owned(generates, ext, Ledger(post.store, post.records))
    requires InService(generates, ContextOf(generates, pre, plan), plan, post)
    requires id != plan.instanceId && Owns(Ledger(post.store, post.records), id, n) && Service(n) in post.running
    ensures post.records[id].resources[n].unit == Service(n)
  {
    hide Captured, TargetStore, SourceMap, InStep, Fresh, UnitsOf, Controlled;
    OtherRecordsKept(generates, ext, Ledger(pre.store, pre.records), plan, Ledger(post.store, post.records), id);
    if Service(n) in ToStart(plan) {
      DeployedIsOwned(generates, Ledger(pre.store, pre.records), plan, Ledger(post.store, post.records), n);
      OneOwner(Ledger(post.store, post.records), id, plan.instanceId, n);
      assert false;
    } else {
      OwnerKept(generates, ext, pre, plan, post, id, n);
    }
  }

  lemma OtherRecordsKept(
    generates: (string, string) -> bool, ext: map<string, string>, pre: Ledger, plan: Plan, post: Ledger, id: string)
    requires Owned(generates, ext, pre) && Committed(generates, pre, plan, post)
    requires plan.operation.Install? || Active(pre.records, plan.instanceId)
    requires id != plan.instanceId && id in post.records
    ensures id in pre.records && post.records[id] == pre.records[id]
  {
    hide Captured, TargetStore, SourceMap, Placeable;
    if plan.operation.Remove? {
      assert RecordIsRegular(generates, plan.instanceId, pre.records[plan.instanceId]);
    }
  }

  // What a plan starts, its instance owns afterwards.
  lemma DeployedIsOwned(generates: (string, string) -> bool, pre: Ledger, plan: Plan, post: Ledger, n: string)
    requires Committed(generates, pre, plan, post) && !plan.operation.Other? && Service(n) in ToStart(plan)
    ensures Owns(post, plan.instanceId, n)
  {
    hide TargetStore, SourceMap, Placeable;
    var r :| r in plan.resources && r.start && Service(n) == Service(r.name);
    var i :| 0 <= i < |plan.resources| && plan.resources[i] == r;
    assert Names(plan.resources)[i] == n;
  }

  // When the records stay, and no unit has come up but those on an active one.
  lemma UnchangedKeepsOnRecord(
    generates: (string, string) -> bool, ext: map<string, string>, pre: View, id: string, post: View)
    requires Owned(generates, ext, Ledger(pre.store, pre.records)) && InStep(generates, pre)
    requires post.records == pre.records
    requires forall u :: u in post.running && u !in pre.running ==>
      Active(pre.records, id) && u in UnitsUnder(pre.records, id)
    ensures OnRecord(post)
  {
    hide UnitsUnder, Fresh, Owned;
    var l, m := Ledger(pre.store, pre.records), Ledger(post.store, post.records);
    forall a, n | Owns(m, a, n) && Service(n) in post.running
      ensures post.records[a].resources[n].unit == Service(n)
    {
      assert Owns(l, a, n);
      if Service(n) !in pre.running {
        UnitOnRecord(generates, ext, l, id, Service(n));
        assert Owns(l, id, n);
        OwnersAreDistinct(generates, ext, l);
        OneOwner(l, a, id, n);
      }
    }
  }

  lemma OwnersAreDistinct(generates: (string, string) -> bool, ext: map<string, string>, l: Ledger)
    requires Owned(generates, ext, l)
    ensures OwnersDistinct(l)
  {
  }

  // ---- every step ----

  lemma LetThroughIsActive(generates: (string, string) -> bool, ext: map<string, string>, l: Ledger, plan: Plan)
    requires Owned(generates, ext, l) && LetThrough(plan, l.records, l.store)
    ensures plan.operation.Install? || Active(l.records, plan.instanceId)
  {
    if !plan.operation.Install? && !Active(l.records, plan.instanceId) {
      RemovedHasDrift(generates, ext, l, plan.instanceId);
      assert false;
    }
  }

  lemma StoppingKeepsUpToDate(generates: (string, string) -> bool, c: Context, pre: View, post: View)
    requires UpToDate(generates, pre) && c.start == pre && OnlyStopped(c, post)
    ensures UpToDate(generates, post)
  {
  }

  lemma FailureKeepsInStep(
    generates: (string, string) -> bool, ext: map<string, string>, pre: View, plan: Plan, e: Option<Error>, post: View)
    requires Owned(generates, ext, Ledger(pre.store, pre.records)) && InStep(generates, pre)
    requires plan.operation.Install? || Active(pre.records, plan.instanceId)
    requires Finished(generates, Ledger(pre.store, pre.records), plan, e, Ledger(post.store, post.records))
    requires Served(generates, ContextOf(generates, pre, plan), plan, e, post) && !Through(e) && !IsRollbackFailure(e)
    ensures UpToDate(generates, post) && OnRecord(post)
  {
    hide Owned, Controlled, TargetStore, Offers, UnitsOf, Cut, OnRecord, Committed, Placeable, Fresh;
    var c := ContextOf(generates, pre, plan);
    if BackInService(generates, c, post) {
      UndoneIsUpToDate(generates, ext, pre, plan, post);
    } else {
      StoppingKeepsUpToDate(generates, c, pre, post);
    }
    UnchangedKeepsOnRecord(generates, ext, pre, plan.instanceId, post);
  }

  // No rollback and no save has failed.
  predicate Smooth(act: Act) {
    act.Ran? ==> !IsRollbackFailure(act.e) && act.e != Some(SaveFailed)
  }

  lemma RanKeepsInStep(
    generates: (string, string) -> bool, ext: map<string, string>, pre: World, act: Act, post: World)
    requires act.Ran? && Steps(generates, pre, act, post) && Clean(pre, act, post) && Smooth(act)
    requires BeginsOwned(generates, ext, pre) && InStep(generates, pre.view)
    requires post.view != pre.view
    ensures InStep(generates, post.view)
  {
    var plan, v, w := pre.plans[act.key], pre.view, post.view;
    StepIsOwnedIffClean(generates, ext, pre, act, post);
    SincereIsKnown(plan);
    hide Owned, Sincere, UpToDate, OnRecord, InService, BackInService, OnlyStopped, DriftFree, Controlled, TargetStore;
    hide Untouched, Committed, ReadsAlike;
    LetThroughIsActive(generates, ext, pre.Books(), plan);
    if Through(act.e) {
      ThroughIsUpToDate(generates, ext, v, plan, act.e, w);
      CommitKeepsOnRecord(generates, ext, v, plan, w);
    } else {
      FailureKeepsInStep(generates, ext, v, plan, act.e, w);
    }
  }

  lemma ServicedKeepsInStep(
    generates: (string, string) -> bool, ext: map<string, string>, pre: World, act: Act, post: World)
    requires act.Serviced? && Steps(generates, pre, act, post)
    requires Owned(generates, ext, pre.Books()) && InStep(generates, pre.view)
    ensures InStep(generates, post.view)
  {
    hide Owned, OnRecord, UnitsUnder, Runnable;
    UnchangedKeepsOnRecord(generates, ext, pre.view, act.id, post.view);
  }

  // In a clean run without a failed rollback or save, systemd is in step in every state.
  lemma {:induction false} CleanRunsStayInStep(
    generates: (string, string) -> bool, ext: map<string, string>, worlds: seq<World>, acts: seq<Act>, i: nat)
    requires IsCleanRun(generates, worlds, acts) && i < |worlds|
    requires forall j :: 0 <= j < |acts| ==> Smooth(acts[j])
    requires BeginsOwned(generates, ext, worlds[0]) && InStep(generates, worlds[0].view)
    ensures InStep(generates, worlds[i].view)
  {
    if i > 0 {
      CleanRunsStayInStep(generates, ext, worlds, acts, i - 1);
      CleanRunsStayOwned(generates, ext, worlds, acts, i - 1);
      hide BeginsOwned, InStep, Executed, Served, Untouched;
      var pre, act, post := worlds[i - 1], acts[i - 1], worlds[i];
      assert Steps(generates, pre, act, post) && Clean(pre, act, post);
      if post.view != pre.view {
        if act.Ran? {
          RanKeepsInStep(generates, ext, pre, act, post);
        } else {
          assert Owned(generates, ext, pre.Books()) by {
            OwnedAtFirst(generates, ext, pre);
          }
          ServicedKeepsInStep(generates, ext, pre, act, post);
        }
      }
    }
  }

  lemma OwnedAtFirst(generates: (string, string) -> bool, ext: map<string, string>, w: World)
    requires BeginsOwned(generates, ext, w)
    ensures Owned(generates, ext, w.Books())
  {
  }

  // An update or remove of an active instance, all of whose sources on record are within what
  // the client reads.
  ghost predicate ForRecord(v: View, plan: Plan) {
    && Active(v.records, plan.instanceId)
    && (plan.operation.Update? || plan.operation.Remove?)
    && var resources := v.records[plan.instanceId].resources;
    && forall n :: n in resources ==> |resources[n].source| < READ_LIMIT
  }

  // From a state in step, every such plan works on units under control, whether it fits or
  // not.
  lemma PlansAreControlled(
    generates: (string, string) -> bool, ext: map<string, string>, v: View, plan: Plan)
    requires Owned(generates, ext, Ledger(v.store, v.records)) && InStep(generates, v) && ForRecord(v, plan)
    ensures ContextOf(generates, v, plan).controlled && v.loaded == v.store
  {
    hide Owned, TargetStore, Offers, SourceMap, Cut, ClientAccepts, RecordIsRegular, Placeable;
    var id, offers := plan.instanceId, ContextOf(generates, v, plan).offers;
    var r := v.records[id];
    forall n | n in r.resources
      ensures n in v.store && v.store[n] == r.resources[n].source
      ensures r.resources[n].unit == UnitFor(generates, n, v.store[n])
      ensures Cut(v.store[n]) == v.store[n]
      ensures Service(n) in v.running ==> r.resources[n].unit == Service(n)
    {
      OwnedSource(generates, ext, Ledger(v.store, v.records), id, n);
      assert Owns(Ledger(v.store, v.records), id, n);
    }
    assert forall p :: p in offers && p.0 !in v.store ==> Service(p.0) !in v.running;
  }

  // So in such runs no unforced removal of an update or remove hits a running unit, unless a
  // stop before it failed.
  lemma RemovalsAreQuiet(
    generates: (string, string) -> bool, ext: map<string, string>, v: View, plan: Plan, tr: seq<Step>, now: View,
    k: nat)
    requires Owned(generates, ext, Ledger(v.store, v.records)) && InStep(generates, v) && ForRecord(v, plan)
    requires Good(ContextOf(generates, v, plan), tr) && Linked(generates, v, tr, now) && k < |tr|
    requires tr[k].call.RemoveSource? && !tr[k].call.force && StopsOk(tr[..k])
    ensures Service(tr[k].call.name) !in tr[k].before.running
  {
    hide Owned, InStep, Good, Linked, Controlled, TargetStore;
    PlansAreControlled(generates, ext, v, plan);
    ReloadsAndRemovalsAreSafe(generates, v, plan, tr, now, k);
  }

  // A source on record below the client's limit is live as it is.
  lemma OwnedSource(generates: (string, string) -> bool, ext: map<string, string>, l: Ledger, id: string, n: string)
    requires Owned(generates, ext, l) && Owns(l, id, n) && |l.records[id].resources[n].source| < READ_LIMIT
    ensures n in l.store && l.store[n] == l.records[id].resources[n].source == Cut(l.store[n])
    ensures l.records[id].resources[n].unit == UnitFor(generates, n, l.store[n])
  {
    hide HistoryIsRegular, ExternalsKept, NamesApart, OwnersDistinct, StoreCovered, ClientAccepts;
    assert RecordIsRegular(generates, id, l.records[id]);
    assert ResourceIsRegular(generates, id, n, l.records[id].resources[n]);
  }
}

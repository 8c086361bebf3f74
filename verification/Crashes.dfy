// A crash of the whole machine after an execution: what the record store then reads, and what
// that means for the instance.
module Crashes {
  import opened Model
  import opened Disks
  import opened StateStore
  import opened Journal
  import opened Ownership

  // The instances' directory: records under their own ids.
  ghost predicate HoldsRecords(folder: Folder<Instance>, disk: Disk, records: map<string, Instance>) {
    Sound(disk) && folder.Holds(Live(disk), records)
  }

  // After a save that reported success, a crash leaves the new records, or, unless the
  // directory was synced, the old ones.
  lemma CrashAfterSave(
    folder: Folder<Instance>, start: Disk, disk: Disk, after: Disk, records: map<string, Instance>, record: Instance,
    settled: bool)
    requires folder.Faithful() && HoldsRecords(folder, start, records) && start.pending == []
    requires Sound(disk) && Crashed(disk, after)
    requires var next := Live(start)[FileName(folder.idOf(record)) := folder.encode(record)];
      Reads(start, next, disk, HowCertain(true, settled))
    ensures
      || HoldsRecords(folder, after, records[folder.idOf(record) := record])
      || (!settled && HoldsRecords(folder, after, records))
  {
    hide MayRead, Sound, Live;
    CrashReadsWholeFiles(disk, after);
    folder.HoldsUpdated(Live(start), records, record);
    SettledReadsLive(start, Live(after));
  }

  // The plan that was executed, seen from what is left when its record is lost.
  lemma LostRecordIsUnsaved(generates: (string, string) -> bool, pre: Ledger, plan: Plan, post: Ledger)
    requires Executed(generates, pre, plan, None, post) && !plan.operation.Other?
    ensures Executed(generates, pre, plan, Some(SaveFailed), Ledger(post.store, pre.records))
  {
    hide SourceMap, Captured, DriftFree, Placeable;
  }

  // So after a crash the engine finds the outcome of the execution or, unless the directory
  // was synced, that of a failed save; and then the instance is locked out exactly when a
  // baseline of its old record does not match what the plan aimed for.
  lemma CrashAfterExecution(
    generates: (string, string) -> bool, folder: Folder<Instance>, start: Disk, disk: Disk, after: Disk, pre: Ledger,
    plan: Plan, post: Ledger, id: string, settled: bool)
    returns (left: Ledger)
    requires folder.Faithful() && (forall r: Instance :: folder.idOf(r) == r.id)
    requires HoldsRecords(folder, start, pre.records) && start.pending == []
    requires Executed(generates, pre, plan, None, post) && !plan.operation.Other?
    requires id in post.records && post.records[id].id == id && post.records == pre.records[id := post.records[id]]
    requires Sound(disk) && Crashed(disk, after)
    requires var next := Live(start)[FileName(id) := folder.encode(post.records[id])];
      Reads(start, next, disk, HowCertain(true, settled))
    ensures left.store == post.store && HoldsRecords(folder, after, left.records)
    ensures left == post || (!settled && Executed(generates, pre, plan, Some(SaveFailed), left))
    ensures left != post ==>
      (LockedOut(generates, left, plan.instanceId) <==>
        !(plan.instanceId in pre.records && DriftFree(pre.records[plan.instanceId], post.store)))
  {
    hide Executed, LockedOut, DriftFree, Sound, Live, Reads;
    CrashAfterSave(folder, start, disk, after, pre.records, post.records[id], settled);
    if HoldsRecords(folder, after, post.records) {
      left := post;
    } else {
      left := Ledger(post.store, pre.records);
      LostRecordIsUnsaved(generates, pre, plan, post);
      LockedOutIff(generates, left, plan.instanceId);
    }
  }
}

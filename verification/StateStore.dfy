// The durable record store: one directory of JSON files, written by create, write, sync and
// rename. It behaves as a map from ids to values, across errors and crashes.
module StateStore {
  import opened Ordering
  import opened Model
  import opened Text
  import opened Numbers
  import opened Disks

  ghost predicate SafeId(id: string) {
    1 <= |id| <= 128 && forall i :: 0 <= i < |id| ==> IdChar(id[i])
  }

  method IsSafeId(id: string) returns (ok: bool)
    ensures ok <==> SafeId(id)
  {
    if id == "" || |id| > 128 {
      return false;
    }
    for i := 0 to |id|
      invariant forall j :: 0 <= j < i ==> IdChar(id[j])
    {
      if !('a' <= id[i] <= 'z' || '0' <= id[i] <= '9' || id[i] == '-') {
        return false;
      }
    }
    return true;
  }

  function FileName(id: string): (name: string)
    ensures IsRecord(name)
  {
    id + ".json"
  }

  lemma FileNameIsInjective(a: string, b: string)
    requires FileName(a) == FileName(b)
    ensures a == b
  {
    assert a == FileName(a)[..|FileName(a)| - 5];
    assert b == FileName(b)[..|FileName(b)| - 5];
  }

  lemma RecordEndsInN(name: string)
    requires IsRecord(name)
    ensures name[|name| - 1] == 'n'
  {
    assert name[|name| - 1] == name[|name| - 5..][4];
  }

  lemma TempIsNoRecord(suffix: string)
    requires suffix != [] && AllDigits(suffix)
    ensures !IsRecord(".tmp-" + suffix)
  {
    var name := ".tmp-" + suffix;
    assert name[|name| - 1] == suffix[|suffix| - 1];
    if IsRecord(name) {
      RecordEndsInN(name);
      assert false;
    }
  }

  // d is a moment of a change from start to next: a crash then reads exactly what it could
  // read before, that or the finished result, or the finished result alone.
  ghost predicate SafeMoment(start: Disk, next: map<string, string>, d: Disk) {
    Sound(d) && (Reads(start, next, d, Unchanged) || Reads(start, next, d, Either) || Reads(start, next, d, Certain))
  }

  ghost predicate SafeMoments(start: Disk, next: map<string, string>, moments: seq<Disk>) {
    forall d :: d in moments ==> SafeMoment(start, next, d)
  }

  // The calls of a save that goes well but for the directory's sync.
  lemma SaveCalls(start: Disk, temp: string, name: string, text: string) returns (moments: seq<Disk>, now: Disk)
    requires Sound(start) && start.pending == [] && temp !in start.dir && !IsRecord(temp) && IsRecord(name)
    ensures Chain(moments, start, now) && Sound(now) && Live(now) == Live(start)[name := text]
    ensures now.durable == start.durable == start.dir && now.data.Keys == start.data.Keys + {start.next}
    ensures now.synced == start.synced + {start.next} && forall i :: i in start.synced ==> now.data[i] == start.data[i]
  {
    var made := Create(start, temp);
    var written := Write(made, start.next, text);
    var synced := Sync(written, start.next);
    CreateIsSafe(start, temp);
    WriteIsSafe(made, start.next, text);
    SyncIsSafe(written, start.next);
    RenameIsSafe(synced, temp, name);
    now := Change(synced, Rename(temp, name));
    moments := [start, made, written, synced, now];
    hide Sound, MayRead, Live, Reads, Files;
    LinkedByOneCall(start, MakeFile(temp));
    LinkedByOneCall(made, WriteFile(start.next, text));
    LinkedByOneCall(written, SyncFile(start.next));
    LinkedByOneCall(synced, ChangeDir(Rename(temp, name)));
  }

  lemma LinkedByOneCall(d: Disk, call: DiskCall)
    requires Possible(d, call)
    ensures OneCall(d, Effect(d, call))
  {
  }

  // An error is final, and so is a success once the directory has been synced.
  function HowCertain(ok: bool, settled: bool): Certainty {
    if !ok then Unchanged else if settled then Certain else Either
  }

  datatype Read<V> = Found(value: V) | Absent | Unreadable

  class Folder<V(!new)> {
    const encode: V -> string
    const decode: string -> Option<V>
    const idOf: V -> string
    var disk: Disk
    ghost var moments: seq<Disk>   // the states the disk went through in the last save or delete
    ghost var faults: nat          // calls that went wrong

    constructor (encode: V -> string, decode: string -> Option<V>, idOf: V -> string, disk: Disk)
      ensures this.encode == encode && this.decode == decode && this.idOf == idOf && this.disk == disk
    {
      this.encode, this.decode, this.idOf, this.disk := encode, decode, idOf, disk;
      this.moments, this.faults := [disk], 0;
    }

    // Decoding undoes encoding.
    ghost predicate Faithful() {
      forall v: V :: decode(encode(v)) == Some(v)
    }

    // These files hold exactly the values of m, each under its own id.
    ghost predicate Holds(files: map<string, string>, m: map<string, V>) {
      && (forall id :: id in m ==>
            FileName(id) in files && decode(files[FileName(id)]) == Some(m[id]) && idOf(m[id]) == id)
      && (forall n :: n in files ==> exists id :: id in m && FileName(id) == n)
    }

    ghost predicate Represents(m: map<string, V>)
      reads this`disk
    {
      Sound(disk) && Holds(Live(disk), m)
    }

    // Storing one more value's file stores the value in the map.
    lemma HoldsUpdated(files: map<string, string>, m: map<string, V>, v: V)
      requires Faithful() && Holds(files, m)
      ensures Holds(files[FileName(idOf(v)) := encode(v)], m[idOf(v) := v])
    {
      var id := idOf(v);
      var after, n := files[FileName(id) := encode(v)], m[id := v];
      forall i | i in n
        ensures FileName(i) in after && decode(after[FileName(i)]) == Some(n[i]) && idOf(n[i]) == i
      {
        if i != id && FileName(i) == FileName(id) {
          FileNameIsInjective(i, id);
        }
      }
      forall f | f in after
        ensures exists i :: i in n && FileName(i) == f
      {
        if f != FileName(id) {
          var i :| i in m && FileName(i) == f;
          assert i in n;
        }
      }
    }

    lemma OtherFile(m: map<string, V>, id: string)
      ensures forall i :: i in m - {id} ==> FileName(i) != FileName(id)
    {
      forall i | i in m - {id}
        ensures FileName(i) != FileName(id)
      {
        if FileName(i) == FileName(id) {
          FileNameIsInjective(i, id);
        }
      }
    }

    lemma HoldsRemoved(files: map<string, string>, m: map<string, V>, id: string)
      requires Holds(files, m)
      ensures Holds(files - {FileName(id)}, m - {id})
    {
      OtherFile(m, id);
      hide FileName;
      var rest, n := files - {FileName(id)}, m - {id};
      forall i | i in n
        ensures FileName(i) in rest && decode(rest[FileName(i)]) == Some(n[i]) && idOf(n[i]) == i
      {
        assert i in m;
      }
      forall f | f in rest
        ensures exists i :: i in n && FileName(i) == f
      {
        var i :| i in m && FileName(i) == f;
        assert i in n;
      }
    }

    // The map a set of files holds is the only one.
    lemma HoldsOne(files: map<string, string>, m: map<string, V>, n: map<string, V>)
      requires Holds(files, m) && Holds(files, n)
      ensures m == n
    {
      forall id | id in m
        ensures id in n && n[id] == m[id]
      {
        var i :| i in n && FileName(i) == FileName(id);
        FileNameIsInjective(i, id);
      }
      forall id | id in n
        ensures id in m
      {
        var i :| i in m && FileName(i) == FileName(id);
        FileNameIsInjective(i, id);
      }
    }

    // Does a system call go through? If not, that is a fault.
    method Works() returns (b: bool)
      modifies this`faults
      ensures faults == old(faults) + if b then 0 else 1
    {
      b := *;
      faults := faults + if b then 0 else 1;
    }

    // The change under way began at start, and has been safe in every state since.
    ghost predicate Tracked(start: Disk, next: map<string, string>)
      reads this`disk, this`moments
    {
      Chain(moments, start, disk) && SafeMoments(start, next, moments)
    }

    // One system call's effect on the disk.
    method Step(ghost start: Disk, ghost next: map<string, string>, ghost call: DiskCall, after: Disk)
      requires Tracked(start, next) && Possible(disk, call) && after == Effect(disk, call)
      requires SafeMoment(start, next, after)
      modifies this`disk, this`moments
      ensures disk == after && Tracked(start, next)
    {
      hide SafeMoment, Possible, Effect;
      assert OneCall(disk, after);
      disk := after;
      moments := moments + [after];
    }

    // The deferred removal of the temporary file; after a rename there is nothing to remove.
    method RemoveTemp(ghost start: Disk, ghost next: map<string, string>, temp: string)
      requires Tracked(start, next) && Sound(disk) && Reads(start, next, disk, Unchanged) && !IsRecord(temp)
      modifies this`disk, this`moments, this`faults
      ensures Tracked(start, next) && Sound(disk) && Reads(start, next, disk, Unchanged)
      ensures Live(disk) == old(Live(disk))
      ensures faults >= old(faults)
    {
      var removed := Works();
      if temp in disk.dir && removed {
        hide Sound, MayRead, Live, Change, Reads, Chain;
        UnlinkTempIsSafe(disk, temp);
        ReadsOn(start, next, disk, Change(disk, Unlink(temp)), Unchanged);
        Step(start, next, ChangeDir(Unlink(temp)), Change(disk, Unlink(temp)));
      }
    }

    // os.CreateTemp: an unused name that begins with ".tmp-" and goes on in digits. It gives
    // up when it finds none.
    method CreateTemp(ghost start: Disk, ghost next: map<string, string>) returns (temp: string, ok: bool)
      requires Tracked(start, next) && Sound(disk) && Reads(start, next, disk, Unchanged)
      modifies this`disk, this`moments, this`faults
      ensures Tracked(start, next) && Sound(disk) && Reads(start, next, disk, Unchanged)
      ensures Live(disk) == old(Live(disk))
      ensures !ok ==> disk == old(disk)
      ensures ok ==> !IsRecord(temp) && disk == Create(old(disk), temp) && disk.dir[temp] !in disk.synced
      ensures faults >= old(faults) && (!ok ==> faults > old(faults))
    {
      ok := Works();
      var suffix: string := *;
      temp := ".tmp-" + suffix;
      if ok && (suffix == [] || !AllDigits(suffix) || temp in disk.dir) {
        faults := faults + 1;
        ok := false;
      }
      if ok {
        TempIsNoRecord(suffix);
        CreateIsSafe(disk, temp);
        ReadsOn(start, next, disk, Create(disk, temp), Unchanged);
        Step(start, next, MakeFile(temp), Create(disk, temp));
      }
    }

    // Fill a fresh file and make it durable; a failed write leaves any part of the text.
    method Fill(ghost start: Disk, ghost next: map<string, string>, inode: nat, text: string) returns (ok: bool)
      requires Tracked(start, next) && Sound(disk) && Reads(start, next, disk, Unchanged)
      requires inode in disk.data && inode !in disk.synced
      modifies this`disk, this`moments, this`faults
      ensures Tracked(start, next) && Sound(disk) && Reads(start, next, disk, Unchanged)
      ensures Live(disk) == old(Live(disk)) && disk.dir == old(disk.dir)
      ensures ok ==> inode in disk.synced && disk.data[inode] == text
      ensures faults >= old(faults) && (!ok ==> faults > old(faults))
    {
      hide Sound, MayRead, Live, Reads, Tracked;
      var chmod := Works();
      if !chmod {
        return false;
      }
      var written := Works();
      var part: string := *;
      ghost var call := WriteFile(inode, if written then text else part);
      var full := Write(disk, inode, if written then text else part);
      WriteIsSafe(disk, inode, if written then text else part);
      ReadsOn(start, next, disk, full, Unchanged);
      Step(start, next, call, full);
      var synced := Works();
      if !written || !synced {
        return false;
      }
      SyncIsSafe(disk, inode);
      ReadsOn(start, next, disk, Sync(disk, inode), Unchanged);
      Step(start, next, SyncFile(inode), Sync(disk, inode));
      ok := Works();
    }

    // Put the finished file in place, then sync the directory; whether that sync works is
    // never reported.
    method Publish(ghost start: Disk, ghost next: map<string, string>, temp: string, name: string)
      returns (ok: bool, ghost settled: bool)
      requires Tracked(start, next) && Sound(disk) && Reads(start, next, disk, Unchanged)
      requires temp in disk.dir && disk.dir[temp] in disk.synced && !IsRecord(temp) && IsRecord(name)
      requires next == Live(disk)[name := disk.data[disk.dir[temp]]]
      modifies this`disk, this`moments, this`faults
      ensures Tracked(start, next) && Sound(disk)
      ensures Live(disk) == if ok then next else old(Live(disk))
      ensures ok ==> temp !in disk.dir
      ensures settled ==> ok
      ensures Reads(start, next, disk, HowCertain(ok, settled))
      ensures faults >= old(faults) && (!ok ==> faults > old(faults))
    {
      hide Sound, MayRead, Live;
      settled := false;
      ok := Works();
      if !ok {
        return;
      }
      var renamed := Change(disk, Rename(temp, name));
      RenameIsSafe(disk, temp, name);
      Step(start, next, ChangeDir(Rename(temp, name)), renamed);
      var synced := Works();
      if synced {
        SyncDirIsSafe(disk);
        Step(start, next, SyncFolder, SyncDir(disk));
        settled := true;
      }
    }

    // atomicJSON. It either puts the whole text in place or leaves the files as they were,
    // and in every state in between a crash reads what it could have read before the call
    // or the finished result. An error is final; a success is once the directory is synced.
    method AtomicWrite(name: string, text: string) returns (ok: bool, ghost settled: bool)
      requires Sound(disk) && IsRecord(name)
      modifies this`disk, this`moments, this`faults
      ensures Live(disk) == if ok then old(Live(disk))[name := text] else old(Live(disk))
      ensures Tracked(old(disk), old(Live(disk))[name := text]) && Sound(disk)
      ensures Reads(old(disk), old(Live(disk))[name := text], disk, HowCertain(ok, settled))
      ensures settled ==> ok
      ensures faults >= old(faults) && (!ok ==> faults > old(faults))
    {
      hide MayRead, Live, Sound;
      ghost var start, next := disk, Live(disk)[name := text];
      moments := [disk];
      settled := false;
      ok := Works();
      if !ok {
        return;
      }
      var temp;
      temp, ok := CreateTemp(start, next);
      if !ok {
        return;
      }
      ok := Fill(start, next, disk.dir[temp], text);
      if ok {
        ok, settled := Publish(start, next, temp, name);
      }
      if temp in disk.dir {
        RemoveTemp(start, next, temp);
      }
    }

    // ---- the store's operations, as operations on a map ----

    // Every state the call went through reads back, after a crash, as a map that could have
    // been read before the call or as m.
    ghost predicate OnlyOldOr(start: Disk, m: map<string, V>, moments: seq<Disk>) {
      && (forall d :: d in moments ==> Sound(d))
      && (forall d, f :: d in moments && MayRead(d, f) ==> MayRead(start, f) || Holds(f, m))
    }

    lemma SafeIsOnlyOldOr(start: Disk, next: map<string, string>, m: map<string, V>, moments: seq<Disk>)
      requires SafeMoments(start, next, moments) && Holds(next, m)
      ensures OnlyOldOr(start, m, moments)
    {
      hide Sound, MayRead, Holds;
      forall d, f | d in moments && MayRead(d, f)
        ensures MayRead(start, f) || Holds(f, m)
      {
        assert SafeMoment(start, next, d);
      }
    }

    // Saving. What a crash may read of the outcome is exact: after an error what it could
    // read before; after a success the new files alone if the directory was synced, and
    // otherwise also what it could read before.
    method Save(v: V, ghost m: map<string, V>) returns (ok: bool, ghost settled: bool)
      requires Faithful() && Represents(m)
      modifies this`disk, this`moments, this`faults
      ensures Represents(if ok then m[idOf(v) := v] else m)
      ensures Chain(moments, old(disk), disk) && OnlyOldOr(old(disk), m[idOf(v) := v], moments)
      ensures Reads(old(disk), old(Live(disk))[FileName(idOf(v)) := encode(v)], disk, HowCertain(ok, settled))
      ensures settled ==> ok
      ensures faults >= old(faults) && (!ok ==> faults > old(faults))
    {
      HoldsUpdated(Live(disk), m, v);
      ghost var start, next := disk, Live(disk)[FileName(idOf(v)) := encode(v)];
      hide Sound, MayRead, Live, Holds, Reads, FileName, SafeMoments, OnlyOldOr, Chain;
      ok, settled := AtomicWrite(FileName(idOf(v)), encode(v));
      SafeIsOnlyOldOr(start, next, m[idOf(v) := v], moments);
    }

    method Get(id: string, ghost m: map<string, V>) returns (r: Read<V>)
      requires Represents(m)
      modifies this`faults
      ensures r.Found? ==> id in m && r.value == m[id]
      ensures r.Absent? ==> id !in m
      ensures !SafeId(id) ==> r.Unreadable?
      ensures r.Unreadable? && SafeId(id) ==> faults > old(faults)
    {
      var safe := IsSafeId(id);
      if !safe {
        return Unreadable;
      }
      var readable := Works();
      if !readable {
        return Unreadable;
      }
      var name := FileName(id);
      if name !in disk.dir || disk.dir[name] !in disk.data {
        assert name !in Live(disk);
        return Absent;
      }
      assert name in Live(disk);
      ghost var i :| i in m && FileName(i) == name;
      FileNameIsInjective(i, id);
      match decode(disk.data[disk.dir[name]]) {
        case Some(v) => return Found(v);
        case None => return Unreadable;
      }
    }

    // os.Remove, to which a missing file is no error either.
    method RemoveFile(name: string) returns (ok: bool)
      requires Sound(disk) && IsRecord(name)
      modifies this`disk, this`moments, this`faults
      ensures Live(disk) == if ok then old(Live(disk)) - {name} else old(Live(disk))
      ensures Tracked(old(disk), old(Live(disk)) - {name}) && Sound(disk)
      ensures Reads(old(disk), old(Live(disk)) - {name}, disk, HowCertain(ok, false))
      ensures faults >= old(faults) && (!ok ==> faults > old(faults))
    {
      hide Sound, MayRead, Live, Change;
      ghost var start, next := disk, Live(disk) - {name};
      moments := [disk];
      ok := Works();
      if !ok {
        return;
      }
      if name in disk.dir {
        UnlinkRecordIsSafe(disk, name);
        Step(start, next, ChangeDir(Unlink(name)), Change(disk, Unlink(name)));
      } else {
        AbsentIsNotLive(disk, name);
      }
    }

    // Removing a file that is not there is not an error. The directory is never synced here, so
    // a crash may also undo a reported removal.
    method Delete(id: string, ghost m: map<string, V>) returns (ok: bool)
      requires Represents(m)
      modifies this`disk, this`moments, this`faults
      ensures Represents(if ok then m - {id} else m)
      ensures ok ==> SafeId(id)
      ensures Chain(moments, old(disk), disk) && OnlyOldOr(old(disk), m - {id}, moments)
      ensures Reads(old(disk), old(Live(disk)) - {FileName(id)}, disk, HowCertain(ok, false))
      ensures faults >= old(faults) && (!ok && SafeId(id) ==> faults > old(faults))
    {
      var safe := IsSafeId(id);
      if !safe {
        moments := [disk];
        return false;
      }
      HoldsRemoved(Live(disk), m, id);
      ghost var start, next := disk, Live(disk) - {FileName(id)};
      hide Sound, MayRead, Live, Holds, Reads, FileName, SafeMoments, OnlyOldOr, Chain;
      ok := RemoveFile(FileName(id));
      SafeIsOnlyOldOr(start, next, m - {id}, moments);
    }

    // A crash in any state of a save or delete that began on a settled disk, the last one
    // included, leaves the whole old map or the whole new one.
    lemma CrashLeavesOldOrNew(
      start: Disk, moments: seq<Disk>, now: Disk, k: nat, after: Disk, m: map<string, V>, n: map<string, V>)
      requires Sound(start) && start.pending == [] && Holds(Live(start), m)
      requires Chain(moments, start, now) && OnlyOldOr(start, n, moments)
      requires k < |moments| && Crashed(moments[k], after)
      ensures Sound(after) && (Holds(Live(after), m) || Holds(Live(after), n))
    {
      CrashReadsWholeFiles(moments[k], after);
      SettledReadsLive(start, Live(after));
    }

    // A save that reports success without having synced the directory can still be undone: the
    // calls it makes lead to a disk that holds the new map, and reads as the old one after a
    // crash.
    lemma ReportedSaveMayBeUndone(start: Disk, temp: string, v: V, m: map<string, V>)
      returns (moments: seq<Disk>, now: Disk, after: Disk)
      requires Faithful() && Sound(start) && start.pending == [] && Holds(Live(start), m)
      requires !IsRecord(temp) && temp !in start.dir
      ensures Chain(moments, start, now)
      ensures Sound(now) && Holds(Live(now), m[idOf(v) := v])
      ensures Crashed(now, after) && Holds(Live(after), m)
    {
      var name, text := FileName(idOf(v)), encode(v);
      moments, now := SaveCalls(start, temp, name, text);
      HoldsUpdated(Live(start), m, v);
      after := now.(dir := start.dir, durable := start.dir, pending := [], synced := now.data.Keys);
      assert now.pending[..0] == [] && start.pending[..0] == [];
      assert after.dir == DirAt(now, 0);
      assert Live(after) == Live(start);
    }

    // The values in a sequence, with one more in its place by id.
    function Place(vs: seq<V>, v: V): (r: seq<V>)
      ensures |r| == |vs| + 1
    {
      if vs == [] then [v]
      else if Less(idOf(v), idOf(vs[0])) then [v] + vs
      else [vs[0]] + Place(vs[1..], v)
    }

    ghost predicate ValuesOf(vs: seq<V>, ids: seq<string>, m: map<string, V>) {
      |vs| == |ids| && forall i :: 0 <= i < |ids| ==> ids[i] in m && vs[i] == m[ids[i]] && idOf(vs[i]) == ids[i]
    }

    lemma {:induction false} PlaceFollowsInsert(vs: seq<V>, ids: seq<string>, v: V, m: map<string, V>)
      requires ValuesOf(vs, ids, m) && Ascending(ids)
      requires idOf(v) in m && m[idOf(v)] == v && idOf(v) !in ids
      ensures ValuesOf(Place(vs, v), Insert(ids, idOf(v)), m)
    {
      if ids != [] && !Less(idOf(v), idOf(vs[0])) {
        PlaceFollowsInsert(vs[1..], ids[1..], v, m);
      }
    }

    // The one id whose record file this is.
    lemma OwnerOf(name: string, m: map<string, V>) returns (id: string)
      requires Represents(m) && name in disk.dir && IsRecord(name)
      ensures id in m && FileName(id) == name && idOf(m[id]) == id
      ensures forall other :: other in m && FileName(other) == name ==> other == id
      ensures disk.dir[name] in disk.data && decode(disk.data[disk.dir[name]]) == Some(m[id])
    {
      LastDirIsSound(disk);
      assert name in Live(disk);
      id :| id in m && FileName(id) == name;
      forall other | other in m && FileName(other) == name
        ensures other == id
      {
        FileNameIsInjective(other, id);
      }
    }

    lemma AllOnDisk(m: map<string, V>)
      requires Represents(m)
      ensures forall id :: id in m ==> FileName(id) in disk.dir
    {
    }

    // All values, sorted by id. Files whose name does not end in ".json", such as leftover
    // temporary files, are passed over; one unreadable file fails the listing.
    method List(ghost m: map<string, V>) returns (out: Option<seq<V>>, ghost ids: seq<string>)
      requires Represents(m)
      modifies this`faults
      ensures out.Some? ==> Lists(ids, m.Keys) && ValuesOf(out.value, ids, m)
      ensures out.None? ==> faults > old(faults)
    {
      hide Represents, FileName;
      ids := [];
      var listed := Works();
      if !listed {
        return None, ids;
      }
      AllOnDisk(m);
      var vs: seq<V> := [];
      ids := [];
      var rest := disk.dir.Keys;
      while rest != {}
        invariant rest <= disk.dir.Keys
        invariant Ascending(ids) && ValuesOf(vs, ids, m)
        invariant forall id :: id in ids <==> id in m && FileName(id) !in rest
        invariant faults >= old(faults)
        decreases rest
      {
        var name :| name in rest;
        if IsRecord(name) {
          ghost var id := OwnerOf(name, m);
          var readable := Works();
          if !readable {
            return None, ids;
          }
          match decode(disk.data[disk.dir[name]]) {
            case None => return None, ids;
            case Some(v) =>
              PlaceFollowsInsert(vs, ids, v, m);
              vs := Place(vs, v);
              ids := Insert(ids, id);
          }
        }
        rest := rest - {name};
      }
      out := Some(vs);
    }
  }
}

// One directory of files, as an ordered-metadata file system keeps it across a crash.
//
// Directory changes reach the disk in the order they were made, up to some point; the
// contents of a file are certain only once it has been synced.
module Disks {
  datatype DirOp = Link(name: string, inode: nat) | Unlink(name: string) | Rename(source: string, target: string)

  datatype Disk = Disk(
    dir: map<string, nat>,       // the directory as programs see it
    durable: map<string, nat>,   // the directory at its last sync
    pending: seq<DirOp>,         // what has changed since, in order
    data: map<nat, string>,      // file contents as programs see them
    synced: set<nat>,            // files whose contents are on disk
    next: nat)                   // an unused inode

  function Apply(dir: map<string, nat>, op: DirOp): map<string, nat> {
    match op
    case Link(name, inode) => dir[name := inode]
    case Unlink(name) => dir - {name}
    case Rename(source, target) => if source in dir then (dir - {source})[target := dir[source]] else dir
  }

  function ApplyAll(dir: map<string, nat>, ops: seq<DirOp>): map<string, nat> {
    if ops == [] then dir else Apply(ApplyAll(dir, ops[..|ops| - 1]), ops[|ops| - 1])
  }

  predicate IsRecord(name: string) {
    |name| >= 5 && name[|name| - 5..] == ".json"
  }

  // The record files a directory shows, and their contents.
  function Files(dir: map<string, nat>, data: map<nat, string>): map<string, string> {
    map n | n in dir && IsRecord(n) && dir[n] in data :: data[dir[n]]
  }

  function Live(d: Disk): map<string, string> {
    Files(d.dir, d.data)
  }

  // The directory after the first k pending changes.
  function DirAt(d: Disk, k: nat): map<string, nat>
    requires k <= |d.pending|
  {
    ApplyAll(d.durable, d.pending[..k])
  }

  // Every record file in every directory a crash may leave has its contents on disk.
  ghost predicate Sound(d: Disk) {
    && d.dir == DirAt(d, |d.pending|)
    && (forall i :: i in d.data ==> i < d.next)
    && d.synced <= d.data.Keys
    && forall k: nat :: k <= |d.pending| ==> SoundDir(DirAt(d, k), d.synced)
  }

  ghost predicate SoundDir(dir: map<string, nat>, synced: set<nat>) {
    forall n :: n in dir && IsRecord(n) ==> dir[n] in synced
  }

  // f is what a restart after a crash would read: the record files after some prefix of the
  // pending changes.
  ghost predicate MayRead(d: Disk, f: map<string, string>) {
    exists k: nat :: k <= |d.pending| && f == Files(DirAt(d, k), d.data)
  }

  // What a crash leaves: some prefix of the pending changes, synced contents intact, and
  // anything at all in the other files.
  ghost predicate Crashed(d: Disk, after: Disk) {
    && (exists k: nat :: k <= |d.pending| && after.dir == DirAt(d, k))
    && after.durable == after.dir && after.pending == []
    && after.data.Keys == d.data.Keys == after.synced && after.next == d.next
    && forall i :: i in d.synced && i in d.data ==> after.data[i] == d.data[i]
  }

  // A crash keeps the disk sound, and only whole files are read back.
  lemma CrashReadsWholeFiles(d: Disk, after: Disk)
    requires Sound(d) && Crashed(d, after)
    ensures Sound(after) && MayRead(d, Live(after))
  {
    var k: nat :| k <= |d.pending| && after.dir == DirAt(d, k);
    assert SoundDir(DirAt(d, k), d.synced);
    assert Live(after) == Files(DirAt(d, k), d.data);
    forall j: nat | j <= |after.pending|
      ensures SoundDir(DirAt(after, j), after.synced)
    {
      assert after.pending[..j] == [];
    }
  }

  lemma SettledReadsLive(d: Disk, f: map<string, string>)
    requires Sound(d) && d.pending == []
    ensures MayRead(d, f) <==> f == Live(d)
  {
    assert d.pending[..0] == [];
    if f == Live(d) {
      assert f == Files(DirAt(d, 0), d.data);
    }
  }

  lemma LiveMayBeRead(d: Disk)
    requires Sound(d)
    ensures MayRead(d, Live(d))
  {
    assert Live(d) == Files(DirAt(d, |d.pending|), d.data);
  }

  // ---- the calls a save makes ----

  function Create(d: Disk, name: string): Disk {
    d.(dir := d.dir[name := d.next], pending := d.pending + [Link(name, d.next)], data := d.data[d.next := ""],
       next := d.next + 1)
  }

  function Write(d: Disk, inode: nat, text: string): Disk {
    d.(data := d.data[inode := text], synced := d.synced - {inode})
  }

  function Sync(d: Disk, inode: nat): Disk {
    d.(synced := d.synced + {inode})
  }

  function Change(d: Disk, op: DirOp): Disk {
    d.(dir := Apply(d.dir, op), pending := d.pending + [op])
  }

  function SyncDir(d: Disk): Disk {
    d.(durable := d.dir, pending := [])
  }

  datatype DiskCall =
    | MakeFile(name: string) | WriteFile(inode: nat, text: string) | SyncFile(inode: nat)
    | ChangeDir(op: DirOp) | SyncFolder

  predicate Possible(d: Disk, call: DiskCall) {
    match call
    case MakeFile(name) => name !in d.dir
    case WriteFile(inode, _) => inode in d.data
    case SyncFile(inode) => inode in d.data
    case ChangeDir(Unlink(name)) => name in d.dir
    case ChangeDir(Rename(source, _)) => source in d.dir
    case ChangeDir(Link(_, _)) => false
    case SyncFolder => true
  }

  function Effect(d: Disk, call: DiskCall): Disk {
    match call
    case MakeFile(name) => Create(d, name)
    case WriteFile(inode, text) => Write(d, inode, text)
    case SyncFile(inode) => Sync(d, inode)
    case ChangeDir(op) => Change(d, op)
    case SyncFolder => SyncDir(d)
  }

  // One system call leads from a to b.
  ghost predicate OneCall(a: Disk, b: Disk) {
    exists call :: Possible(a, call) && b == Effect(a, call)
  }

  // The disk went from start to now through exactly these states, one system call at a time.
  ghost predicate Chain(moments: seq<Disk>, start: Disk, now: Disk) {
    && moments != [] && moments[0] == start && moments[|moments| - 1] == now
    && forall i :: 0 <= i < |moments| - 1 ==> OneCall(moments[i], moments[i + 1])
  }

  // How much of a change to `next` a crash may still show.
  datatype Certainty = Unchanged | Either | Certain

  // What a crash may read from d is exactly this: what it could read from start, that or the
  // finished change, or the finished change alone.
  ghost predicate Reads(start: Disk, next: map<string, string>, d: Disk, how: Certainty) {
    forall f :: MayRead(d, f) <==> (!how.Certain? && MayRead(start, f)) || (!how.Unchanged? && f == next)
  }

  lemma DirAtExtended(d: Disk, op: DirOp, k: nat)
    requires k <= |d.pending| + 1 && d.dir == DirAt(d, |d.pending|)
    ensures DirAt(Change(d, op), k) == if k <= |d.pending| then DirAt(d, k) else Apply(d.dir, op)
  {
    var all := d.pending + [op];
    if k <= |d.pending| {
      assert all[..k] == d.pending[..k];
    } else {
      assert all[..k] == all;
      assert all[..|all| - 1] == d.pending[..|d.pending|];
    }
  }

  lemma ChangeReadsNoMore(d: Disk, op: DirOp)
    requires Sound(d) && SoundDir(Apply(d.dir, op), d.synced)
    ensures Sound(Change(d, op))
    ensures forall f :: MayRead(Change(d, op), f) ==> MayRead(d, f) || f == Live(Change(d, op))
  {
    var e := Change(d, op);
    forall k: nat | k <= |e.pending|
      ensures SoundDir(DirAt(e, k), e.synced)
      ensures k <= |d.pending| ==> DirAt(e, k) == DirAt(d, k)
      ensures k == |e.pending| ==> DirAt(e, k) == e.dir
    {
      DirAtExtended(d, op, k);
    }
  }

  // Until the directory is synced, a crash may also undo the change: what could be read
  // before can still be read.
  lemma ChangeMayBeLost(d: Disk, op: DirOp, f: map<string, string>)
    requires Sound(d) && MayRead(d, f)
    ensures MayRead(Change(d, op), f)
  {
    var k: nat :| k <= |d.pending| && f == Files(DirAt(d, k), d.data);
    DirAtExtended(d, op, k);
  }

  // A directory change that leaves the directory sound keeps the disk sound, and lets a
  // crash read exactly what it could read before or the new directory.
  lemma ChangeIsSafe(d: Disk, op: DirOp)
    requires Sound(d) && SoundDir(Apply(d.dir, op), d.synced)
    ensures Sound(Change(d, op))
    ensures Reads(d, Live(Change(d, op)), Change(d, op), Either)
  {
    ChangeReadsNoMore(d, op);
    LiveMayBeRead(Change(d, op));
    ChangesMayBeLost(d, op);
    hide *;
    EitherIsRead(d, Change(d, op));
  }

  lemma ChangesMayBeLost(d: Disk, op: DirOp)
    requires Sound(d)
    ensures forall f :: MayRead(d, f) ==> MayRead(Change(d, op), f)
  {
    hide *;
    forall f | MayRead(d, f)
      ensures MayRead(Change(d, op), f)
    {
      ChangeMayBeLost(d, op, f);
    }
  }

  lemma EitherIsRead(d: Disk, e: Disk)
    requires forall f :: MayRead(e, f) ==> MayRead(d, f) || f == Live(e)
    requires MayRead(e, Live(e)) && forall f :: MayRead(d, f) ==> MayRead(e, f)
    ensures Reads(d, Live(e), e, Either)
  {
    hide MayRead, Live;
  }

  // Creating a file under a name that is no record's changes nothing that can be read.
  lemma CreateIsSafe(d: Disk, name: string)
    requires Sound(d) && !IsRecord(name) && name !in d.dir
    ensures Sound(Create(d, name)) && Live(Create(d, name)) == Live(d)
    ensures Reads(d, map[], Create(d, name), Unchanged)
  {
    var data := d.data[d.next := ""];
    var e := d.(data := data, next := d.next + 1);
    DataIsSafe(d, e);
    assert Create(d, name) == Change(e, Link(name, d.next));
    ChangeIsSafe(e, Link(name, d.next));
    InvisibleChange(d, e, Link(name, d.next));
  }

  // A directory change that no record shows is invisible.
  lemma InvisibleChange(d: Disk, e: Disk, op: DirOp)
    requires Sound(e) && Reads(d, map[], e, Unchanged) && Reads(e, Live(Change(e, op)), Change(e, op), Either)
    requires Live(Change(e, op)) == Live(e)
    ensures Reads(d, map[], Change(e, op), Unchanged)
  {
    LiveMayBeRead(e);
    hide Sound, MayRead, Live, Change;
  }

  // Changing the contents or the certainty of a file no record leads to is invisible.
  lemma DataIsSafe(d: Disk, e: Disk)
    requires Sound(d)
    requires e.dir == d.dir && e.durable == d.durable && e.pending == d.pending && d.next <= e.next
    requires d.data.Keys <= e.data.Keys && d.synced <= e.synced <= e.data.Keys
    requires forall i :: i in e.data ==> i < e.next
    requires forall i :: i in d.synced ==> e.data[i] == d.data[i]
    ensures Sound(e) && Live(e) == Live(d)
    ensures Reads(d, map[], e, Unchanged)
  {
    forall k: nat | k <= |d.pending|
      ensures DirAt(e, k) == DirAt(d, k) && SoundDir(DirAt(e, k), e.synced)
      ensures Files(DirAt(e, k), e.data) == Files(DirAt(d, k), d.data)
    {
      assert SoundDir(DirAt(d, k), d.synced);
    }
  }

  lemma WriteIsSafe(d: Disk, inode: nat, text: string)
    requires Sound(d) && inode in d.data && inode !in d.synced
    ensures Sound(Write(d, inode, text)) && Live(Write(d, inode, text)) == Live(d)
    ensures Reads(d, map[], Write(d, inode, text), Unchanged)
  {
    DataIsSafe(d, Write(d, inode, text));
  }

  lemma SyncIsSafe(d: Disk, inode: nat)
    requires Sound(d) && inode in d.data
    ensures Sound(Sync(d, inode)) && Live(Sync(d, inode)) == Live(d)
    ensures Reads(d, map[], Sync(d, inode), Unchanged)
  {
    DataIsSafe(d, Sync(d, inode));
  }

  // What reads the same as a reads from start as a does.
  lemma ReadsOn(start: Disk, next: map<string, string>, a: Disk, b: Disk, how: Certainty)
    requires Reads(start, next, a, how) && Reads(a, map[], b, Unchanged)
    ensures Reads(start, next, b, how)
  {
    hide MayRead;
  }

  lemma SyncDirIsSafe(d: Disk)
    requires Sound(d)
    ensures Sound(SyncDir(d)) && Live(SyncDir(d)) == Live(d)
    ensures Reads(d, Live(d), SyncDir(d), Certain)
  {
    var e := SyncDir(d);
    assert e.pending[..0] == [];
    forall k: nat | k <= |e.pending|
      ensures DirAt(e, k) == e.dir && SoundDir(DirAt(e, k), e.synced)
    {
      assert SoundDir(DirAt(d, |d.pending|), d.synced);
    }
    LiveMayBeRead(e);
  }

  lemma LastDirIsSound(d: Disk)
    requires Sound(d)
    ensures SoundDir(d.dir, d.synced)
  {
  }

  // Removing a file that is no record is invisible.
  lemma UnlinkTempIsSafe(d: Disk, temp: string)
    requires Sound(d) && !IsRecord(temp)
    ensures Sound(Change(d, Unlink(temp))) && Live(Change(d, Unlink(temp))) == Live(d)
    ensures Reads(d, map[], Change(d, Unlink(temp)), Unchanged)
  {
    LastDirIsSound(d);
    ChangeIsSafe(d, Unlink(temp));
    assert Live(Change(d, Unlink(temp))) == Live(d);
    LiveMayBeRead(d);
  }

  lemma AbsentIsNotLive(d: Disk, name: string)
    requires Sound(d) && name !in d.dir
    ensures Live(d) - {name} == Live(d)
    ensures Reads(d, Live(d) - {name}, d, Either)
  {
    LiveMayBeRead(d);
    hide MayRead, Sound;
    assert Live(d) - {name} == Live(d);
  }

  // Removing a record removes it from what is read.
  lemma UnlinkRecordIsSafe(d: Disk, name: string)
    requires Sound(d) && IsRecord(name)
    ensures Sound(Change(d, Unlink(name))) && Live(Change(d, Unlink(name))) == Live(d) - {name}
    ensures Reads(d, Live(d) - {name}, Change(d, Unlink(name)), Either)
  {
    LastDirIsSound(d);
    ChangeIsSafe(d, Unlink(name));
    assert Live(Change(d, Unlink(name))) == Live(d) - {name};
  }

  // Renaming a synced file onto a record puts its whole contents in place, or not yet.
  lemma RenameIsSafe(d: Disk, temp: string, name: string)
    requires Sound(d) && !IsRecord(temp) && IsRecord(name)
    requires temp in d.dir && d.dir[temp] in d.synced
    ensures var next := Live(d)[name := d.data[d.dir[temp]]];
      && Sound(Change(d, Rename(temp, name))) && Live(Change(d, Rename(temp, name))) == next
      && Reads(d, next, Change(d, Rename(temp, name)), Either)
  {
    LastDirIsSound(d);
    ChangeIsSafe(d, Rename(temp, name));
    assert Live(Change(d, Rename(temp, name))) == Live(d)[name := d.data[d.dir[temp]]];
  }
}

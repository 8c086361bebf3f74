// Creating application directories below an approved root by walking open descriptors.
//
// The file system is a graph of nodes; a descriptor is a unique handle on a node. Mkdirat
// and Openat2 act on one component at a time, and any call may fail.
module Directories {
  import opened Model
  import opened Text
  import opened Paths

  datatype Node = Dir(entries: map<string, nat>) | File | Symlink(target: string)

  datatype Tree = Tree(nodes: map<nat, Node>, next: nat) {
    // Every entry leads to a node, and `next` is an unused name for one.
    ghost predicate Valid() {
      && (forall n :: n in nodes ==> n < next)
      && (forall n :: n in nodes && nodes[n].Dir? ==>
            forall p :: p in nodes[n].entries ==> nodes[n].entries[p] in nodes)
    }

    predicate IsDir(n: nat) {
      n in nodes && nodes[n].Dir?
    }

    function Entries(n: nat): map<string, nat> {
      if IsDir(n) then nodes[n].entries else map[]
    }

    // Does this entry of dir lead to a real directory?
    predicate Leads(dir: nat, part: string) {
      part in Entries(dir) && IsDir(Entries(dir)[part])
    }

    // mkdir of one component: an existing entry of any kind is left alone.
    function Mkdir(dir: nat, name: string): (t: Tree)
      requires Valid() && IsDir(dir)
      ensures t.Valid() && t.IsDir(dir) && name in t.Entries(dir)
    {
      if name in nodes[dir].entries then this
      else Tree(nodes[dir := Dir(nodes[dir].entries[name := next])][next := Dir(map[])], next + 1)
    }
  }

  // Where a path leads through real directories only.
  ghost function Reach(t: Tree, dir: nat, parts: seq<string>): (at: Option<nat>)
    ensures at.Some? ==> t.IsDir(at.value)
    decreases |parts|
  {
    if !t.IsDir(dir) then None
    else if parts == [] then Some(dir)
    else if parts[0] !in t.Entries(dir) then None
    else Reach(t, t.Entries(dir)[parts[0]], parts[1..])
  }

  // The tree after making every missing directory of a path, up to the first component
  // that exists as something else.
  ghost function Grow(t: Tree, dir: nat, parts: seq<string>): (u: Tree)
    requires t.Valid()
    ensures u.Valid()
    decreases |parts|
  {
    if parts == [] || !t.IsDir(dir) then t
    else
      var made := t.Mkdir(dir, parts[0]);
      Grow(made, made.Entries(dir)[parts[0]], parts[1..])
  }

  // Nothing that existed is changed, but for entries added to directories.
  ghost predicate Keeps(t: Tree, u: Tree) {
    && t.next <= u.next
    && (forall n :: n in t.nodes ==> n in u.nodes)
    && (forall n :: n in t.nodes ==>
          if t.IsDir(n) then u.IsDir(n) && KeepsEntries(t.Entries(n), u.Entries(n)) else u.nodes[n] == t.nodes[n])
  }

  ghost predicate KeepsEntries(a: map<string, nat>, b: map<string, nat>) {
    forall p :: p in a ==> p in b && b[p] == a[p]
  }

  lemma MkdirKeeps(t: Tree, dir: nat, name: string)
    requires t.Valid() && t.IsDir(dir)
    ensures Keeps(t, t.Mkdir(dir, name))
  {
  }

  lemma KeepsTransitive(t: Tree, u: Tree, v: Tree)
    requires Keeps(t, u) && Keeps(u, v)
    ensures Keeps(t, v)
  {
  }

  lemma {:induction false} GrowKeeps(t: Tree, dir: nat, parts: seq<string>)
    requires t.Valid()
    ensures Keeps(t, Grow(t, dir, parts))
    decreases |parts|
  {
    if parts != [] && t.IsDir(dir) {
      var made := t.Mkdir(dir, parts[0]);
      MkdirKeeps(t, dir, parts[0]);
      GrowKeeps(made, made.Entries(dir)[parts[0]], parts[1..]);
      KeepsTransitive(t, made, Grow(t, dir, parts));
    }
  }

  lemma {:induction false} ReachIsKept(t: Tree, u: Tree, dir: nat, parts: seq<string>)
    requires Keeps(t, u) && Reach(t, dir, parts).Some?
    ensures Reach(u, dir, parts) == Reach(t, dir, parts)
    decreases |parts|
  {
    if parts != [] {
      ReachIsKept(t, u, t.Entries(dir)[parts[0]], parts[1..]);
    }
  }

  // Growing by one more component is one more mkdir at the place reached so far.
  lemma {:induction false} GrowOneMore(t: Tree, dir: nat, parts: seq<string>, part: string)
    requires t.Valid() && t.IsDir(dir)
    ensures var u := Grow(t, dir, parts);
      var at := Reach(u, dir, parts);
      Grow(t, dir, parts + [part]) == (if at.Some? then u.Mkdir(at.value, part) else u)
    decreases |parts|
  {
    var all := parts + [part];
    if parts == [] {
      assert Grow(t, dir, []) == t;
      var made := t.Mkdir(dir, part);
      assert all[1..] == [];
      assert Grow(made, made.Entries(dir)[part], []) == made;
    } else {
      assert all[1..] == parts[1..] + [part];
      var made := t.Mkdir(dir, parts[0]);
      var child := made.Entries(dir)[parts[0]];
      GrowKeeps(made, child, parts[1..]);
      if made.IsDir(child) {
        GrowOneMore(made, child, parts[1..], part);
      }
    }
  }

  // Where growing succeeds it has nothing left to do.
  lemma {:induction false} ReachedIsGrown(t: Tree, dir: nat, parts: seq<string>)
    requires t.Valid() && Reach(t, dir, parts).Some?
    ensures Grow(t, dir, parts) == t
    decreases |parts|
  {
    if parts != [] {
      ReachedIsGrown(t, t.Entries(dir)[parts[0]], parts[1..]);
    }
  }

  lemma {:induction false} GrowTwice(t: Tree, dir: nat, parts: seq<string>)
    requires t.Valid()
    ensures Grow(Grow(t, dir, parts), dir, parts) == Grow(t, dir, parts)
    decreases |parts|
  {
    if parts != [] && t.IsDir(dir) {
      var made := t.Mkdir(dir, parts[0]);
      var child := made.Entries(dir)[parts[0]];
      var u := Grow(made, child, parts[1..]);
      GrowKeeps(made, child, parts[1..]);
      GrowTwice(made, child, parts[1..]);
      assert u.Mkdir(dir, parts[0]) == u;
    }
  }

  lemma {:induction false} ReachedPrefix(t: Tree, dir: nat, parts: seq<string>, n: nat)
    requires Reach(t, dir, parts).Some? && n <= |parts|
    ensures Reach(t, dir, parts[..n]).Some?
    decreases n
  {
    if n > 0 {
      ReachedPrefix(t, t.Entries(dir)[parts[0]], parts[1..], n - 1);
      assert parts[..n][1..] == parts[1..][..n - 1];
    }
  }

  // Calling EnsureDir again after a success changes nothing, however far it gets.
  lemma SecondCallIsIdle(t: Tree, dir: nat, parts: seq<string>, n: nat)
    requires t.Valid() && n <= |parts|
    requires Reach(Grow(t, dir, parts), dir, parts).Some?
    ensures var u := Grow(t, dir, parts); Grow(u, dir, parts[..n]) == u && Grow(u, dir, parts) == u
  {
    var u := Grow(t, dir, parts);
    GrowTwice(t, dir, parts);
    ReachedPrefix(u, dir, parts, n);
    ReachedIsGrown(u, dir, parts[..n]);
  }

  // n lies on the path, k components down.
  ghost predicate OnPath(t: Tree, dir: nat, parts: seq<string>, n: nat, k: nat) {
    k <= |parts| && Reach(t, dir, parts[..k]) == Some(n)
  }

  // Growing makes only directories on the path, all of them unreachable before, and gives
  // an existing directory a new entry only if it is on the path, for the next component.
  lemma {:induction false} GrowAddsOnlyThePath(t: Tree, dir: nat, parts: seq<string>)
    requires t.Valid()
    ensures var u := Grow(t, dir, parts);
      && (forall n :: n in u.nodes && n !in t.nodes ==> u.IsDir(n) && exists k: nat :: OnPath(u, dir, parts, n, k))
      && (forall n, p :: n in t.nodes && t.IsDir(n) && p in u.Entries(n) && p !in t.Entries(n) ==>
            exists k: nat :: k < |parts| && parts[k] == p && OnPath(t, dir, parts, n, k))
    decreases |parts|
  {
    var u := Grow(t, dir, parts);
    GrowKeeps(t, dir, parts);
    if parts != [] && t.IsDir(dir) {
      var made := t.Mkdir(dir, parts[0]);
      var child := made.Entries(dir)[parts[0]];
      GrowAddsOnlyThePath(made, child, parts[1..]);
      GrowKeeps(made, child, parts[1..]);
      forall n | n in u.nodes && n !in t.nodes
        ensures u.IsDir(n) && exists k: nat :: OnPath(u, dir, parts, n, k)
      {
        if n in made.nodes {
          OneStep(u, dir, parts, n);
        } else {
          var k: nat :| OnPath(u, child, parts[1..], n, k);
          StepDown(u, dir, parts, n, k);
        }
      }
      forall n, p | n in t.nodes && t.IsDir(n) && p in u.Entries(n) && p !in t.Entries(n)
        ensures exists k: nat :: k < |parts| && parts[k] == p && OnPath(t, dir, parts, n, k)
      {
        if p in made.Entries(n) {
          assert parts[..0] == [];
          assert OnPath(t, dir, parts, n, 0) && parts[0] == p;
        } else {
          var k: nat :| k < |parts[1..]| && parts[1..][k] == p && OnPath(made, child, parts[1..], n, k);
          NewLeadsNowhere(t, dir, parts[0], parts[1..], n, k);
          StepDown(t, dir, parts, n, k);
          assert parts[k + 1] == p;
        }
      }
    }
  }

  lemma OneStep(u: Tree, dir: nat, parts: seq<string>, n: nat)
    requires parts != [] && u.IsDir(dir) && parts[0] in u.Entries(dir) && u.Entries(dir)[parts[0]] == n
    requires u.IsDir(n)
    ensures OnPath(u, dir, parts, n, 1)
  {
    assert parts[..1] == [parts[0]];
    assert parts[..1][1..] == [];
  }

  lemma StepDown(u: Tree, dir: nat, parts: seq<string>, n: nat, k: nat)
    requires parts != [] && u.IsDir(dir) && parts[0] in u.Entries(dir)
    requires OnPath(u, u.Entries(dir)[parts[0]], parts[1..], n, k)
    ensures OnPath(u, dir, parts, n, k + 1)
  {
    assert parts[..k + 1][0] == parts[0];
    assert parts[..k + 1][1..] == parts[1..][..k];
  }

  // A directory just made is empty, so an old node below it means it was not just made.
  lemma NewLeadsNowhere(t: Tree, dir: nat, name: string, rest: seq<string>, n: nat, k: nat)
    requires t.Valid() && t.IsDir(dir) && n in t.nodes
    requires OnPath(t.Mkdir(dir, name), t.Mkdir(dir, name).Entries(dir)[name], rest, n, k)
    ensures name in t.Entries(dir) && t.Mkdir(dir, name) == t
  {
  }

  // ---- the kernel and EnsureDir ----

  class Kernel {
    var tree: Tree
    const anchors: map<string, nat>   // absolute paths, their last component not followed
    var open: map<nat, nat>           // open descriptors and the nodes they hold
    var handles: nat                  // descriptors handed out so far
    ghost var faults: nat

    constructor (tree: Tree, anchors: map<string, nat>)
      requires tree.Valid() && forall path :: path in anchors ==> anchors[path] in tree.nodes
      ensures Valid() && this.tree == tree && this.anchors == anchors && open == map[] && faults == 0
    {
      this.tree, this.anchors, this.open, this.handles, this.faults := tree, anchors, map[], 0, 0;
    }

    ghost predicate Valid()
      reads this
    {
      && tree.Valid()
      && (forall path :: path in anchors ==> anchors[path] in tree.nodes)
      && forall fd :: fd in open ==> fd < handles && tree.IsDir(open[fd])
    }

    ghost predicate RootOpens(root: Root)
      reads this
    {
      root.agentPath in anchors && tree.IsDir(anchors[root.agentPath])
    }

    method Flip() returns (b: bool) {
      b := *;
    }

    // open(path, O_PATH|O_DIRECTORY|O_NOFOLLOW): a symlink or file at the end is refused.
    method OpenRoot(path: string) returns (fd: Option<nat>)
      requires Valid()
      modifies this`open, this`handles, this`faults
      ensures Valid()
      ensures fd.Some? ==> path in anchors && tree.IsDir(anchors[path])
      ensures fd.Some? ==> fd.value !in old(open) && open == old(open)[fd.value := anchors[path]]
      ensures fd.None? ==> open == old(open)
      ensures faults == old(faults) + if fd.None? && path in anchors && tree.IsDir(anchors[path]) then 1 else 0
    {
      fd := OpenNode(if path in anchors then Some(anchors[path]) else None);
    }

    // openat2 of one component with O_DIRECTORY and RESOLVE_BENEATH|NO_SYMLINKS|NO_MAGICLINKS.
    method OpenAt(dirFd: nat, part: string) returns (fd: Option<nat>)
      requires Valid() && dirFd in open
      modifies this`open, this`handles, this`faults
      ensures Valid()
      ensures fd.Some? ==> tree.Leads(old(open)[dirFd], part)
      ensures fd.Some? ==> fd.value !in old(open) && open == old(open)[fd.value := tree.Entries(old(open)[dirFd])[part]]
      ensures fd.None? ==> open == old(open)
      ensures faults == old(faults) + if fd.None? && tree.Leads(old(open)[dirFd], part) then 1 else 0
    {
      var entries := tree.Entries(open[dirFd]);
      fd := OpenNode(if part in entries then Some(entries[part]) else None);
    }

    // Hand out a fresh descriptor on a directory; anything else is refused.
    method OpenNode(node: Option<nat>) returns (fd: Option<nat>)
      requires Valid()
      modifies this`open, this`handles, this`faults
      ensures Valid()
      ensures fd.Some? ==>
        fd.value !in old(open) && node.Some? && tree.IsDir(node.value) && open == old(open)[fd.value := node.value]
      ensures fd.None? ==> open == old(open)
      ensures faults == old(faults) + if fd.None? && node.Some? && tree.IsDir(node.value) then 1 else 0
    {
      var fault := Flip();
      if node.None? || !tree.IsDir(node.value) {
        return None;
      }
      if fault {
        faults := faults + 1;
        return None;
      }
      fd := Some(handles);
      open, handles := open[handles := node.value], handles + 1;
    }

    // mkdirat: true when the entry is now there, made or found (EEXIST).
    method MkdirAt(dirFd: nat, part: string) returns (ok: bool)
      requires Valid() && dirFd in open
      modifies this`tree, this`faults
      ensures Valid() && Keeps(old(tree), tree)
      ensures ok ==> tree == old(tree).Mkdir(open[dirFd], part)
      ensures !ok ==> tree == old(tree)
      ensures faults == old(faults) + if ok then 0 else 1
    {
      var fault := Flip();
      if fault {
        faults := faults + 1;
        return false;
      }
      MkdirKeeps(tree, open[dirFd], part);
      tree := tree.Mkdir(open[dirFd], part);
      return true;
    }

    // Closing demands an open descriptor, so closing twice cannot be written.
    method Close(fd: nat)
      requires Valid() && fd in open
      modifies this`open
      ensures Valid() && open == old(open) - {fd}
    {
      open := open - {fd};
    }

    // The two deferred closes, in the order they run.
    method Release(base: nat, fd: nat, owned: bool)
      requires Valid() && base in open && (owned ==> fd in open && fd != base)
      modifies this`open
      ensures Valid() && open == if owned then old(open) - {fd} - {base} else old(open) - {base}
    {
      if owned {
        Close(fd);
      }
      Close(base);
    }
  }

  // The path can be completed: nothing on it exists as anything but a directory.
  ghost predicate Open(t: Tree, dir: nat, parts: seq<string>)
    requires t.Valid()
  {
    Reach(Grow(t, dir, parts), dir, parts).Some?
  }

  lemma {:induction false} ReachOneMore(t: Tree, dir: nat, parts: seq<string>, part: string)
    ensures var at := Reach(t, dir, parts);
      Reach(t, dir, parts + [part]) ==
        if at.Some? && t.Leads(at.value, part) then Some(t.Entries(at.value)[part]) else None
    decreases |parts|
  {
    var all := parts + [part];
    if parts == [] {
      assert all[1..] == [];
    } else if t.IsDir(dir) && parts[0] in t.Entries(dir) {
      assert all[1..] == parts[1..] + [part];
      ReachOneMore(t, t.Entries(dir)[parts[0]], parts[1..], part);
    }
  }

  lemma GrowNothing(t: Tree, dir: nat)
    requires t.Valid()
    ensures Grow(t, dir, []) == t
    ensures t.IsDir(dir) ==> Reach(t, dir, []) == Some(dir)
  {
  }

  // One more turn of the loop: after i components the walk stands at `at`.
  lemma Advance(t: Tree, dir: nat, parts: seq<string>, i: nat, at: nat)
    requires t.Valid() && t.IsDir(dir) && i < |parts|
    requires Reach(Grow(t, dir, parts[..i]), dir, parts[..i]) == Some(at)
    ensures var u := Grow(t, dir, parts[..i]).Mkdir(at, parts[i]);
      && Grow(t, dir, parts[..i + 1]) == u
      && Reach(u, dir, parts[..i + 1]) == if u.Leads(at, parts[i]) then Some(u.Entries(at)[parts[i]]) else None
  {
    hide Keeps, Grow, Reach, Tree.Mkdir, Tree.Leads;
    var was := Grow(t, dir, parts[..i]);
    assert parts[..i + 1] == parts[..i] + [parts[i]];
    GrowOneMore(t, dir, parts[..i], parts[i]);
    var u := was.Mkdir(at, parts[i]);
    MkdirKeeps(was, at, parts[i]);
    ReachIsKept(was, u, dir, parts[..i]);
    ReachOneMore(u, dir, parts[..i], parts[i]);
  }

  // A walk that is stuck after some prefix stays stuck.
  lemma {:induction false} StuckStays(t: Tree, dir: nat, parts: seq<string>, i: nat)
    requires t.Valid() && t.IsDir(dir) && i <= |parts|
    requires Reach(Grow(t, dir, parts[..i]), dir, parts[..i]).None?
    ensures !Open(t, dir, parts)
    decreases |parts| - i
  {
    if i == |parts| {
      assert parts[..i] == parts;
    } else {
      assert parts[..i + 1] == parts[..i] + [parts[i]];
      GrowOneMore(t, dir, parts[..i], parts[i]);
      ReachOneMore(Grow(t, dir, parts[..i]), dir, parts[..i], parts[i]);
      StuckStays(t, dir, parts, i + 1);
    }
  }

  // Make one component below an open directory and open it.
  method Enter(k: Kernel, fd: nat, part: string) returns (next: Option<nat>)
    requires k.Valid() && fd in k.open
    modifies k`tree, k`open, k`handles, k`faults
    ensures k.Valid()
    ensures k.tree == old(k.tree) || k.tree == old(k.tree).Mkdir(old(k.open)[fd], part)
    ensures next.Some? ==> next.value !in old(k.open) && k.tree == old(k.tree).Mkdir(old(k.open)[fd], part)
    ensures next.Some? ==> k.tree.Leads(old(k.open)[fd], part)
    ensures next.Some? ==> k.open == old(k.open)[next.value := k.tree.Entries(old(k.open)[fd])[part]]
    ensures next.None? ==> k.open == old(k.open)
    ensures k.faults >= old(k.faults) && (next.Some? ==> k.faults == old(k.faults))
    ensures next.None? && k.faults == old(k.faults) ==>
      k.tree == old(k.tree).Mkdir(old(k.open)[fd], part) && !k.tree.Leads(old(k.open)[fd], part)
  {
    var ok := k.MkdirAt(fd, part);
    if !ok {
      return None;
    }
    next := k.OpenAt(fd, part);
  }

  // The loop of EnsureDir, from the open root down. On success the last descriptor is still
  // open beside the root's; on failure `fd` and `owned` say what the deferred closes hold.
  method Descend(k: Kernel, base: nat, parts: seq<string>) returns (fd: nat, owned: bool, done: bool)
    requires k.Valid() && base in k.open
    modifies k`tree, k`open, k`handles, k`faults
    ensures k.Valid() && base in k.open && (owned ==> fd in k.open && fd != base)
    ensures owned ==> fd !in old(k.open) && k.open - {fd} == old(k.open)
    ensures !owned ==> k.open == old(k.open)
    ensures exists n :: 0 <= n <= |parts| && k.tree == Grow(old(k.tree), old(k.open)[base], parts[..n])
    ensures done ==> k.tree == Grow(old(k.tree), old(k.open)[base], parts)
    ensures done ==> Reach(k.tree, old(k.open)[base], parts).Some?
    ensures k.faults >= old(k.faults) && (done ==> k.faults == old(k.faults))
    ensures !done && k.faults == old(k.faults) ==> !Open(old(k.tree), old(k.open)[base], parts)
  {
    hide Grow, Reach, Keeps, Tree.Mkdir;
    ghost var top, t := k.open[base], k.tree;
    GrowNothing(t, top);
    fd, owned, done := base, false, false;
    assert parts[..0] == [];
    for i := 0 to |parts|
      invariant k.Valid() && base in k.open && fd in k.open && (owned <==> fd != base)
      invariant owned ==> fd !in old(k.open) && k.open - {fd} == old(k.open)
      invariant !owned ==> k.open == old(k.open)
      invariant k.tree == Grow(t, top, parts[..i])
      invariant Reach(k.tree, top, parts[..i]) == Some(k.open[fd])
      invariant k.faults == old(k.faults)
    {
      Advance(t, top, parts, i, k.open[fd]);
      var next := Enter(k, fd, parts[i]);
      if next.None? {
        if k.faults == old(k.faults) {
          StuckStays(t, top, parts, i + 1);
        }
        return;
      }
      if owned {
        k.Close(fd);
      }
      fd, owned := next.value, true;
    }
    assert parts[..|parts|] == parts;
    done := true;
  }

  // paths.EnsureDir. Whether it succeeds or not, the tree has only grown along the path, and
  // every descriptor it opened is closed again. Without faults it succeeds exactly when the
  // path is acceptable, the root is a real directory and the way is open.
  method EnsureDir(k: Kernel, root: Root, relative: string) returns (made: Option<string>)
    requires k.Valid()
    modifies k
    ensures k.Valid() && k.open == old(k.open)
    ensures Resolve(root, relative).None? || !old(k.RootOpens(root)) ==> made.None? && k.tree == old(k.tree)
    ensures old(k.RootOpens(root)) ==> exists n ::
      0 <= n <= |Split(relative, '/')| &&
      k.tree == Grow(old(k.tree), k.anchors[root.agentPath], Split(relative, '/')[..n])
    ensures k.faults >= old(k.faults) && (made.Some? ==> k.faults == old(k.faults))
    ensures made.Some? ==> made.value == Resolve(root, relative).value.0
    ensures made.Some? ==> k.tree == Grow(old(k.tree), k.anchors[root.agentPath], Split(relative, '/'))
    ensures made.Some? ==> Reach(k.tree, k.anchors[root.agentPath], Split(relative, '/')).Some?
    ensures Resolve(root, relative).Some? && old(k.RootOpens(root)) && k.faults == old(k.faults) ==>
      (made.Some? <==> Open(old(k.tree), k.anchors[root.agentPath], Split(relative, '/')))
  {
    hide Grow, Reach, Resolve, Split, ResolveAccepts;
    var parts := Split(relative, '/');
    assert parts[..0] == [];
    if root.agentPath in k.anchors {
      GrowNothing(k.tree, k.anchors[root.agentPath]);
    }
    var paths := Resolve(root, relative);
    if paths.None? {
      return None;
    }
    var base := k.OpenRoot(root.agentPath);
    if base.None? {
      return None;
    }
    var fd, owned, done := Descend(k, base.value, parts);
    k.Release(base.value, fd, owned);
    if done {
      assert parts[..|parts|] == parts;
      return Some(paths.value.0);
    }
    return None;
  }
}

// All directories of a plan, made one after the other below their approved roots.
module Layouts {
  import opened Model
  import opened Text
  import opened Paths
  import opened Directories

  // The approved root a planned directory names; an unknown one is a root that is refused.
  ghost function RootOf(roots: map<string, Root>, d: Directory): Root {
    if d.rootId in roots then roots[d.rootId] else Root("", "", "")
  }

  // The tree once the first n components of this directory's path are made.
  ghost function MadeTo(t: Tree, anchors: map<string, nat>, root: Root, relative: string, n: nat): (u: Tree)
    requires t.Valid() && n <= |Split(relative, '/')|
    ensures u.Valid()
  {
    if root.agentPath in anchors then Grow(t, anchors[root.agentPath], Split(relative, '/')[..n]) else t
  }

  ghost predicate MadePartly(t: Tree, anchors: map<string, nat>, root: Root, relative: string, u: Tree)
    requires t.Valid()
  {
    exists n: nat :: n <= |Split(relative, '/')| && u == MadeTo(t, anchors, root, relative, n)
  }

  // The tree once all these directories are made.
  ghost function MadeAll(t: Tree, anchors: map<string, nat>, roots: map<string, Root>, dirs: seq<Directory>): (u: Tree)
    requires t.Valid()
    ensures u.Valid()
  {
    if dirs == [] then t
    else
      var k := |dirs| - 1;
      var d := dirs[k];
      MadeTo(MadeAll(t, anchors, roots, dirs[..k]), anchors, RootOf(roots, d), d.relativePath,
        |Split(d.relativePath, '/')|)
  }

  // Some of the directories are made, in order, and at most a part of the next one's path.
  ghost predicate MadeSome(
    t: Tree, anchors: map<string, nat>, roots: map<string, Root>, dirs: seq<Directory>, u: Tree)
    requires t.Valid()
  {
    || u == MadeAll(t, anchors, roots, dirs)
    || exists i ::
         && 0 <= i < |dirs|
         && MadePartly(
              MadeAll(t, anchors, roots, dirs[..i]), anchors, RootOf(roots, dirs[i]), dirs[i].relativePath, u)
  }

  // The directory is there: real directories lead to it from its root.
  ghost predicate Stands(t: Tree, anchors: map<string, nat>, root: Root, relative: string) {
    && Resolve(root, relative).Some? && root.agentPath in anchors
    && Reach(t, anchors[root.agentPath], Split(relative, '/')).Some?
  }

  ghost predicate AllStand(t: Tree, anchors: map<string, nat>, roots: map<string, Root>, dirs: seq<Directory>) {
    forall d :: d in dirs ==> Stands(t, anchors, RootOf(roots, d), d.relativePath)
  }

  // Nothing is in the way: the path is acceptable, its root a real directory, and none of its
  // components exists as anything else.
  ghost predicate WayClear(t: Tree, anchors: map<string, nat>, root: Root, relative: string) {
    && Resolve(root, relative).Some? && root.agentPath in anchors
    && Clear(t, anchors[root.agentPath], Split(relative, '/'))
  }

  ghost predicate WaysClear(t: Tree, anchors: map<string, nat>, roots: map<string, Root>, dirs: seq<Directory>) {
    forall d :: d in dirs ==> WayClear(t, anchors, RootOf(roots, d), d.relativePath)
  }

  ghost predicate Clear(t: Tree, dir: nat, parts: seq<string>)
    decreases |parts|
  {
    && t.IsDir(dir)
    && (parts != [] && parts[0] in t.Entries(dir) ==> Clear(t, t.Entries(dir)[parts[0]], parts[1..]))
  }

  // A clear way is one that growing completes.
  lemma {:induction false} OpenIffClear(t: Tree, dir: nat, parts: seq<string>)
    requires t.Valid()
    ensures Open(t, dir, parts) <==> Clear(t, dir, parts)
    decreases |parts|
  {
    if parts != [] && t.IsDir(dir) {
      var made := t.Mkdir(dir, parts[0]);
      var child := made.Entries(dir)[parts[0]];
      OpenIffClear(made, child, parts[1..]);
      GrowKeeps(made, child, parts[1..]);
      assert Open(t, dir, parts) <==> Open(made, child, parts[1..]);
      if parts[0] in t.Entries(dir) {
        assert made == t;
      } else {
        assert made.Entries(child) == map[];
      }
    }
  }

  lemma ClearIsDir(t: Tree, dir: nat, parts: seq<string>)
    ensures Clear(t, dir, parts) ==> t.IsDir(dir)
  {
  }

  // Making one directory never blocks a way.
  lemma {:induction false} MkdirKeepsClear(t: Tree, at: nat, name: string, dir: nat, parts: seq<string>)
    requires t.Valid() && t.IsDir(at) && Clear(t, dir, parts)
    ensures Clear(t.Mkdir(at, name), dir, parts)
    decreases |parts|
  {
    var u := t.Mkdir(at, name);
    if parts != [] {
      if parts[0] in t.Entries(dir) {
        MkdirKeepsClear(t, at, name, t.Entries(dir)[parts[0]], parts[1..]);
      } else if parts[0] in u.Entries(dir) {
        assert u.Entries(u.Entries(dir)[parts[0]]) == map[];
      }
    }
  }

  lemma {:induction false} GrowKeepsClear(t: Tree, at: nat, names: seq<string>, dir: nat, parts: seq<string>)
    requires t.Valid() && Clear(t, dir, parts)
    ensures Clear(Grow(t, at, names), dir, parts)
    decreases |names|
  {
    if names != [] && t.IsDir(at) {
      MkdirKeepsClear(t, at, names[0], dir, parts);
      var made := t.Mkdir(at, names[0]);
      GrowKeepsClear(made, made.Entries(at)[names[0]], names[1..], dir, parts);
    }
  }

  // Making some directories blocks none of the others' ways, and takes nothing away.
  lemma MadeToKeeps(
    t: Tree, anchors: map<string, nat>, root: Root, relative: string, n: nat, roots: map<string, Root>,
    others: seq<Directory>)
    requires t.Valid() && n <= |Split(relative, '/')|
    ensures var u := MadeTo(t, anchors, root, relative, n);
      && Keeps(t, u)
      && (WaysClear(t, anchors, roots, others) ==> WaysClear(u, anchors, roots, others))
      && (AllStand(t, anchors, roots, others) ==> AllStand(u, anchors, roots, others))
  {
    hide Resolve, Split, Grow, Keeps, Reach, Clear;
    var u := MadeTo(t, anchors, root, relative, n);
    if root.agentPath in anchors {
      var top, parts := anchors[root.agentPath], Split(relative, '/')[..n];
      GrowKeeps(t, top, parts);
      forall d | d in others && Stands(t, anchors, RootOf(roots, d), d.relativePath)
        ensures Stands(u, anchors, RootOf(roots, d), d.relativePath)
      {
        ReachIsKept(t, u, anchors[RootOf(roots, d).agentPath], Split(d.relativePath, '/'));
      }
      forall d | d in others && WayClear(t, anchors, RootOf(roots, d), d.relativePath)
        ensures WayClear(u, anchors, RootOf(roots, d), d.relativePath)
      {
        GrowKeepsClear(t, top, parts, anchors[RootOf(roots, d).agentPath], Split(d.relativePath, '/'));
      }
    } else {
      KeepsItself(t);
    }
  }

  lemma KeepsItself(t: Tree)
    ensures Keeps(t, t)
  {
  }

  // A way that is clear later was clear before: what blocks it stays.
  lemma {:induction false} ClearBefore(t: Tree, u: Tree, dir: nat, parts: seq<string>)
    requires t.Valid() && Keeps(t, u) && dir in t.nodes && Clear(u, dir, parts)
    ensures Clear(t, dir, parts)
    decreases |parts|
  {
    if parts != [] && parts[0] in t.Entries(dir) {
      ClearBefore(t, u, t.Entries(dir)[parts[0]], parts[1..]);
    }
  }

  lemma WayClearBefore(t: Tree, u: Tree, anchors: map<string, nat>, root: Root, relative: string)
    requires t.Valid() && Keeps(t, u) && forall path :: path in anchors ==> anchors[path] in t.nodes
    ensures WayClear(u, anchors, root, relative) ==> WayClear(t, anchors, root, relative)
  {
    hide Resolve, Split;
    if WayClear(u, anchors, root, relative) {
      ClearBefore(t, u, anchors[root.agentPath], Split(relative, '/'));
    }
  }

  // Making part of a path blocks no way and clears none, and takes nothing away.
  lemma PartlyMadeKeeps(
    t: Tree, anchors: map<string, nat>, root: Root, relative: string, u: Tree, roots: map<string, Root>)
    requires t.Valid() && MadePartly(t, anchors, root, relative, u)
    requires forall path :: path in anchors ==> anchors[path] in t.nodes
    ensures Keeps(t, u)
    ensures forall d: Directory :: WayClear(t, anchors, RootOf(roots, d), d.relativePath) <==>
      WayClear(u, anchors, RootOf(roots, d), d.relativePath)
    ensures forall d: Directory :: Stands(t, anchors, RootOf(roots, d), d.relativePath) ==>
      Stands(u, anchors, RootOf(roots, d), d.relativePath)
  {
    hide Keeps, WayClear, Stands, MadeTo;
    var n: nat :| n <= |Split(relative, '/')| && u == MadeTo(t, anchors, root, relative, n);
    MadeToKeeps(t, anchors, root, relative, n, roots, []);
    forall d: Directory
      ensures WayClear(t, anchors, RootOf(roots, d), d.relativePath) <==>
        WayClear(u, anchors, RootOf(roots, d), d.relativePath)
      ensures Stands(t, anchors, RootOf(roots, d), d.relativePath) ==>
        Stands(u, anchors, RootOf(roots, d), d.relativePath)
    {
      MadeToKeeps(t, anchors, root, relative, n, roots, [d]);
      WayClearBefore(t, u, anchors, RootOf(roots, d), d.relativePath);
    }
  }

  lemma NothingMade(t: Tree, anchors: map<string, nat>, roots: map<string, Root>, dirs: seq<Directory>)
    requires t.Valid()
    ensures MadeSome(t, anchors, roots, dirs, t)
  {
    hide Split;
    if dirs != [] {
      var d := dirs[0];
      assert dirs[..0] == [] && Split(d.relativePath, '/')[..0] == [];
      assert MadeTo(t, anchors, RootOf(roots, d), d.relativePath, 0) == t;
      assert MadeAll(t, anchors, roots, dirs[..0]) == t;
      assert MadePartly(t, anchors, RootOf(roots, d), d.relativePath, t);
    }
  }
}

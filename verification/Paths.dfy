// Approved-root paths: filepath.Clean and Join on Unix, the containment check, and its
// relation to the catalog's own check of path parameters.
module Paths {
  import opened Model
  import opened Text

  predicate IsAbs(p: string) {
    p != [] && p[0] == '/'
  }

  // One component of a path, applied to the components kept so far.
  function Visit(rooted: bool, kept: seq<string>, part: string): seq<string> {
    if part == "" || part == "." then kept
    else if part != ".." then kept + [part]
    else if kept != [] && kept[|kept| - 1] != ".." then kept[..|kept| - 1]
    else if rooted then kept
    else kept + [part]
  }

  function Walk(rooted: bool, kept: seq<string>, parts: seq<string>): seq<string>
    decreases |parts|
  {
    if parts == [] then kept else Walk(rooted, Visit(rooted, kept, parts[0]), parts[1..])
  }

  function Render(rooted: bool, kept: seq<string>): string {
    if rooted then "/" + Join(kept, '/')
    else if kept == [] then "."
    else Join(kept, '/')
  }

  // filepath.Clean.
  function Clean(p: string): string {
    if p == "" then "." else Render(IsAbs(p), Walk(IsAbs(p), [], Split(p, '/')))
  }

  // filepath.Join of two elements.
  function JoinPath(a: string, b: string): string {
    if a == "" && b == "" then ""
    else if a == "" then Clean(b)
    else if b == "" then Clean(a)
    else Clean(a + "/" + b)
  }

  // What Clean leaves: no empty or "." component, and ".." only as a leading run of a
  // relative path.
  ghost predicate Normal(rooted: bool, kept: seq<string>) {
    && (forall i :: 0 <= i < |kept| ==> kept[i] != "" && kept[i] != "." && '/' !in kept[i])
    && (forall i :: 0 <= i < |kept| && kept[i] == ".." ==> !rooted && forall j :: 0 <= j < i ==> kept[j] == "..")
  }

  lemma {:induction false} WalkIsNormal(rooted: bool, kept: seq<string>, parts: seq<string>)
    requires Normal(rooted, kept)
    requires forall i :: 0 <= i < |parts| ==> '/' !in parts[i]
    ensures Normal(rooted, Walk(rooted, kept, parts))
    decreases |parts|
  {
    if parts != [] {
      VisitIsNormal(rooted, kept, parts[0]);
      WalkIsNormal(rooted, Visit(rooted, kept, parts[0]), parts[1..]);
    }
  }

  lemma VisitIsNormal(rooted: bool, kept: seq<string>, part: string)
    requires Normal(rooted, kept) && '/' !in part
    ensures Normal(rooted, Visit(rooted, kept, part))
  {
    if part == ".." && (kept == [] || kept[|kept| - 1] == "..") && !rooted {
      assert forall j :: 0 <= j < |kept| ==> kept[j] == "..";
    }
  }

  // Walking over normal components keeps them all.
  lemma {:induction false} WalkKeepsNormal(rooted: bool, kept: seq<string>, parts: seq<string>)
    requires Normal(rooted, kept + parts)
    ensures Walk(rooted, kept, parts) == kept + parts
    decreases |parts|
  {
    if parts == [] {
      assert kept + parts == kept;
    } else {
      var part := parts[0];
      assert (kept + parts)[|kept|] == part;
      if part == ".." && kept != [] {
        assert (kept + parts)[|kept| - 1] == kept[|kept| - 1];
      }
      assert (kept + [part]) + parts[1..] == kept + parts;
      WalkKeepsNormal(rooted, kept + [part], parts[1..]);
    }
  }

  lemma {:induction false} WalkConcat(rooted: bool, kept: seq<string>, a: seq<string>, b: seq<string>)
    ensures Walk(rooted, kept, a + b) == Walk(rooted, Walk(rooted, kept, a), b)
    decreases |a|
  {
    if a == [] {
      assert a + b == b;
    } else {
      assert (a + b)[1..] == a[1..] + b;
      WalkConcat(rooted, Visit(rooted, kept, a[0]), a[1..], b);
    }
  }

  // What Clean renders is read back as the same components.
  lemma RenderedIsClean(rooted: bool, kept: seq<string>)
    requires Normal(rooted, kept)
    ensures Clean(Render(rooted, kept)) == Render(rooted, kept)
    ensures !rooted && kept != [] ==> Split(Render(rooted, kept), '/') == kept && Render(rooted, kept) != "."
  {
    if kept == [] {
      SplitOne(".", '/');
      SplitOne("", '/');
      SplitAt("", '/', "");
      assert Walk(true, [], ["", ""]) == Walk(true, [], [""]);
    } else {
      SplitJoin(kept, '/');
      WalkKeepsNormal(rooted, [], kept);
      assert [] + kept == kept;
      if rooted {
        ReadRooted(kept);
      } else {
        JoinStartsWithFirst(kept);
      }
    }
  }

  lemma ReadRooted(kept: seq<string>)
    requires kept != [] && Normal(true, kept)
    ensures Walk(true, [], Split("/" + Join(kept, '/'), '/')) == Walk(true, [], kept)
  {
    SplitJoin(kept, '/');
    SplitOne("", '/');
    SplitAt("", '/', Join(kept, '/'));
    assert "/" + Join(kept, '/') == "" + ['/'] + Join(kept, '/');
    assert ([""] + kept)[1..] == kept;
  }

  lemma JoinStartsWithFirst(kept: seq<string>)
    requires kept != [] && Normal(false, kept)
    ensures Join(kept, '/') != "" && !IsAbs(Join(kept, '/')) && Join(kept, '/') != "."
  {
    SplitJoin(kept, '/');
    assert Join(kept, '/')[0] == kept[0][0];
  }

  lemma CleanIsIdempotent(p: string)
    ensures Clean(Clean(p)) == Clean(p)
  {
    if p == "" {
      RenderedIsClean(false, []);
    } else {
      WalkIsNormal(IsAbs(p), [], Split(p, '/'));
      RenderedIsClean(IsAbs(p), Walk(IsAbs(p), [], Split(p, '/')));
    }
  }

  // A clean relative path other than "." has only proper components, with ".." only as a
  // leading run.
  lemma CleanRelativeIsNormal(v: string)
    requires v != "" && v != "." && !IsAbs(v) && Clean(v) == v
    ensures Normal(false, Split(v, '/'))
  {
    var kept := Walk(false, [], Split(v, '/'));
    WalkIsNormal(false, [], Split(v, '/'));
    if kept != [] {
      RenderedIsClean(false, kept);
    }
  }

  // ---- where a path leads ----

  // Entering one component from a directory, itself given by its components below the root.
  function Enter(at: seq<string>, part: string): seq<string> {
    if part == "" || part == "." then at
    else if part != ".." then at + [part]
    else if at == [] then []
    else at[..|at| - 1]
  }

  function Follow(at: seq<string>, parts: seq<string>): seq<string>
    decreases |parts|
  {
    if parts == [] then at else Follow(Enter(at, parts[0]), parts[1..])
  }

  lemma {:induction false} FollowOn(at: seq<string>, a: seq<string>, b: seq<string>)
    ensures Follow(at, a + b) == Follow(Follow(at, a), b)
    decreases |a|
  {
    if a == [] {
      assert a + b == b;
    } else {
      assert (a + b)[1..] == a[1..] + b;
      FollowOn(Enter(at, a[0]), a[1..], b);
    }
  }

  // Keeping a component and then following leads where following it would have led.
  lemma VisitLeadsOn(rooted: bool, at: seq<string>, kept: seq<string>, part: string)
    requires Normal(rooted, kept) && (rooted ==> at == [])
    ensures Follow(at, Visit(rooted, kept, part)) == Follow(Follow(at, kept), [part])
  {
    FollowOn(at, kept, [part]);
    if part == ".." && kept != [] && kept[|kept| - 1] != ".." {
      var front, last := kept[..|kept| - 1], kept[|kept| - 1];
      assert kept == front + [last];
      FollowOn(at, front, [last]);
      assert Follow(Follow(at, front), [last]) == Follow(at, front) + [last];
    }
  }

  lemma {:induction false} WalkLeadsOn(rooted: bool, at: seq<string>, kept: seq<string>, parts: seq<string>)
    requires Normal(rooted, kept) && (rooted ==> at == [])
    requires forall i :: 0 <= i < |parts| ==> '/' !in parts[i]
    ensures Follow(at, Walk(rooted, kept, parts)) == Follow(Follow(at, kept), parts)
    decreases |parts|
  {
    if parts != [] {
      VisitIsNormal(rooted, kept, parts[0]);
      VisitLeadsOn(rooted, at, kept, parts[0]);
      WalkLeadsOn(rooted, at, Visit(rooted, kept, parts[0]), parts[1..]);
      assert parts == [parts[0]] + parts[1..];
      FollowOn(Follow(at, kept), [parts[0]], parts[1..]);
    }
  }

  // Cleaning a path keeps where it leads: an absolute one from the root, a relative one from
  // any directory.
  lemma CleanLeadsTheSame(p: string, at: seq<string>)
    requires IsAbs(p) ==> at == []
    ensures IsAbs(Clean(p)) == IsAbs(p)
    ensures Follow(at, Split(Clean(p), '/')) == Follow(at, Split(p, '/'))
  {
    SplitOne(".", '/');
    assert Split("", '/') == [""];
    if p != "" {
      var parts := Split(p, '/');
      var kept := Walk(IsAbs(p), [], parts);
      WalkIsNormal(IsAbs(p), [], parts);
      WalkLeadsOn(IsAbs(p), at, [], parts);
      if kept == [] {
        SplitAt("", '/', "");
        assert "" + ['/'] + "" == "/";
      } else {
        SplitJoin(kept, '/');
        if IsAbs(p) {
          SplitAt("", '/', Join(kept, '/'));
          assert "/" + Join(kept, '/') == "" + ['/'] + Join(kept, '/');
          assert ([""] + kept)[1..] == kept;
        } else {
          JoinStartsWithFirst(kept);
        }
      }
    }
  }

  // ---- the two checks ----

  datatype Root = Root(id: string, hostPath: string, agentPath: string)

  // paths.Resolve's check of the relative path.
  predicate ResolveAccepts(v: string) {
    && v != "" && !IsAbs(v) && Clean(v) == v && v != "."
    && forall i :: 0 <= i < |Split(v, '/')| ==>
         var part := Split(v, '/')[i]; part != "" && part != "." && part != ".." && '\0' !in part
  }

  // The catalog's check of a path parameter.
  predicate CatalogAccepts(v: string) {
    && v != "" && !IsAbs(v) && Clean(v) == v && v != "."
    && !HasPrefix(v, "../") && !Contains(v, "/../")
  }

  function Resolve(root: Root, relative: string): Option<(string, string)> {
    if root.id == "" || !IsAbs(root.agentPath) || !IsAbs(root.hostPath) then None
    else if !ResolveAccepts(relative) then None
    else Some((JoinPath(root.agentPath, relative), JoinPath(root.hostPath, relative)))
  }

  // The path of `relative` strictly below a cleaned root.
  function Below(root: string, relative: string): string {
    if root == "/" then "/" + relative else root + "/" + relative
  }

  lemma JoinIsBelow(root: string, relative: string)
    requires IsAbs(root) && ResolveAccepts(relative)
    ensures JoinPath(root, relative) == Below(Clean(root), relative)
  {
    var base := Walk(true, [], Split(root, '/'));
    var parts := Split(relative, '/');
    WalkIsNormal(true, [], Split(root, '/'));
    assert root + "/" + relative == root + ['/'] + relative;
    SplitAt(root, '/', relative);
    WalkConcat(true, [], Split(root, '/'), parts);
    WalkKeepsNormal(true, base, parts);
    JoinSplit(relative, '/');
    hide Walk, Split, Join, ResolveAccepts, Normal;
    assert JoinPath(root, relative) == "/" + Join(base + parts, '/');
    if base == [] {
      assert base + parts == parts;
    } else {
      JoinConcat(base, parts, '/');
      RootIsLong(base);
    }
  }

  lemma RootIsLong(base: seq<string>)
    requires base != [] && Normal(true, base)
    ensures "/" + Join(base, '/') != "/"
  {
    SplitJoin(base, '/');
    assert base[0] != "";
    assert |Join(base, '/')| > 0;
  }

  // Whatever Resolve accepts lies strictly below both cleaned roots, at the same relative
  // path, and never at a root itself.
  lemma ResolveIsContained(root: Root, relative: string)
    requires Resolve(root, relative).Some?
    ensures var (agent, host) := Resolve(root, relative).value;
      && agent == Below(Clean(root.agentPath), relative)
      && host == Below(Clean(root.hostPath), relative)
      && relative != "" && Normal(true, Split(relative, '/'))
  {
    JoinIsBelow(root.agentPath, relative);
    JoinIsBelow(root.hostPath, relative);
  }

  // Two accepted paths name the same directory only if they are the same path.
  lemma ResolveIsInjective(root: Root, a: string, b: string)
    requires Resolve(root, a).Some? && Resolve(root, b).Some?
    requires Resolve(root, a).value.0 == Resolve(root, b).value.0
    ensures a == b
  {
    JoinIsBelow(root.agentPath, a);
    JoinIsBelow(root.agentPath, b);
    var base := Clean(root.agentPath);
    var skip := if base == "/" then 1 else |base| + 1;
    assert Below(base, a)[skip..] == a;
    assert Below(base, b)[skip..] == b;
  }

  // On strings without NUL the two checks differ on ".." alone, which only the catalog
  // lets through.
  lemma ChecksAgree(v: string)
    requires '\0' !in v
    ensures CatalogAccepts(v) <==> ResolveAccepts(v) || v == ".."
  {
    if CatalogAccepts(v) {
      CatalogImpliesResolve(v);
    }
    if ResolveAccepts(v) {
      ResolveImpliesCatalog(v);
    }
    if v == ".." {
      DotDotIsClean();
    }
  }

  lemma DotDotIsClean()
    ensures CatalogAccepts("..") && !ResolveAccepts("..")
  {
    SplitOne("..", '/');
    assert Split("..", '/') == [".."];
    assert Walk(false, [], [".."]) == [".."];
    forall i: nat | i <= |".."|
      ensures !OccursAt("..", "/../", i)
    {
    }
  }

  lemma CatalogImpliesResolve(v: string)
    requires CatalogAccepts(v) && '\0' !in v
    ensures ResolveAccepts(v) || v == ".."
  {
    var parts := Split(v, '/');
    CleanRelativeIsNormal(v);
    JoinSplit(v, '/');
    PartsWithin(v, '\0');
    if exists i :: 0 <= i < |parts| && parts[i] == ".." {
      assert parts[0] == "..";
      if |parts| > 1 {
        LeadingDotDotShows(v);
        assert false;
      }
    }
  }

  lemma LeadingDotDotShows(v: string)
    requires |Split(v, '/')| > 1 && Split(v, '/')[0] == ".."
    ensures HasPrefix(v, "../")
  {
    JoinSplit(v, '/');
    assert v == "../" + Join(Split(v, '/')[1..], '/');
  }

  lemma ResolveImpliesCatalog(v: string)
    requires ResolveAccepts(v)
    ensures CatalogAccepts(v)
  {
    if HasPrefix(v, "../") || Contains(v, "/../") {
      DotDotIsAPart(v);
      assert false;
    }
  }

  lemma DotDotIsAPart(v: string)
    requires HasPrefix(v, "../") || Contains(v, "/../")
    ensures exists i :: 0 <= i < |Split(v, '/')| && Split(v, '/')[i] == ".."
  {
    SplitOne("..", '/');
    if HasPrefix(v, "../") {
      var rest := v[3..];
      assert v == ".." + ['/'] + rest;
      SplitAt("..", '/', rest);
      assert Split(v, '/')[0] == "..";
    } else {
      var i: nat :| i <= |v| && OccursAt(v, "/../", i);
      var a, b := v[..i], v[i + 4..];
      assert v == a + v[i..i + 4] + b;
      assert "/../" == ['/'] + (".." + ['/']);
      assert v == a + ['/'] + (".." + ['/'] + b);
      SplitAt(a, '/', ".." + ['/'] + b);
      SplitAt("..", '/', b);
      assert Split(v, '/')[|Split(a, '/')|] == "..";
    }
  }

  // A proper name, neither empty nor one of the two that mean a place.
  predicate PlainName(part: string) {
    part != "" && part != "." && part != ".." && '/' !in part
  }

  // One or more proper names, joined.
  ghost predicate PlainPath(v: string) {
    exists parts :: parts != [] && v == Join(parts, '/') && forall i :: 0 <= i < |parts| ==> PlainName(parts[i])
  }

  lemma PlainIsClean(parts: seq<string>)
    requires parts != [] && forall i :: 0 <= i < |parts| ==> PlainName(parts[i])
    ensures var v := Join(parts, '/');
      Split(v, '/') == parts && Clean(v) == v && v != "" && !IsAbs(v) && v != "."
  {
    SplitJoin(parts, '/');
    RenderedIsClean(false, parts);
    JoinStartsWithFirst(parts);
  }

  // Resolve takes exactly the plain paths without NUL.
  lemma ResolveTakesPlainPaths(v: string)
    ensures ResolveAccepts(v) <==> PlainPath(v) && '\0' !in v
    ensures forall root :: Resolve(root, v).Some? <==>
      root.id != "" && IsAbs(root.agentPath) && IsAbs(root.hostPath) && PlainPath(v) && '\0' !in v
  {
    JoinSplit(v, '/');
    if ResolveAccepts(v) {
      JoinWithin(Split(v, '/'), '\0');
    }
    if PlainPath(v) && '\0' !in v {
      var parts :| parts != [] && v == Join(parts, '/') && forall i :: 0 <= i < |parts| ==> PlainName(parts[i]);
      PlainIsClean(parts);
      PartsWithin(v, '\0');
    }
  }

  // The catalog takes exactly the plain paths and the parent.
  lemma CatalogTakesPlainPaths(v: string)
    ensures CatalogAccepts(v) <==> PlainPath(v) || v == ".."
  {
    JoinSplit(v, '/');
    var all := Split(v, '/');
    if CatalogAccepts(v) {
      CleanRelativeIsNormal(v);
      if exists i :: 0 <= i < |all| && all[i] == ".." {
        assert all[0] == "..";
        if |all| > 1 {
          LeadingDotDotShows(v);
          assert false;
        }
      } else {
        assert forall i :: 0 <= i < |all| ==> PlainName(all[i]);
      }
    }
    if PlainPath(v) {
      var parts :| parts != [] && v == Join(parts, '/') && forall i :: 0 <= i < |parts| ==> PlainName(parts[i]);
      PlainIsClean(parts);
      if HasPrefix(v, "../") || Contains(v, "/../") {
        DotDotIsAPart(v);
        assert false;
      }
    }
    if v == ".." {
      DotDotIsClean();
    }
  }

  lemma {:induction false} JoinWithin(parts: seq<string>, x: char)
    requires x != '/' && forall i :: 0 <= i < |parts| ==> x !in parts[i]
    ensures x !in Join(parts, '/')
  {
    if |parts| > 1 {
      JoinWithin(parts[1..], x);
    }
  }

  // Splitting introduces no character.
  lemma {:induction false} PartsWithin(s: string, x: char)
    requires x !in s
    ensures forall i :: 0 <= i < |Split(s, '/')| ==> x !in Split(s, '/')[i]
  {
    if s != [] {
      PartsWithin(s[1..], x);
    }
  }
}

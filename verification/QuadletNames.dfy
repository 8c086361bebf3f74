// The two checks a Quadlet's name meets: one when its application is loaded, one in the
// Podman client before every call about it.
module QuadletNames {
  import opened Text

  const EXTENSIONS := [".container", ".volume", ".network", ".image", ".build", ".pod", ".artifact"]

  // filepath.Base(p) == p, and on this system path.Base too.
  predicate IsBase(p: string) {
    p == "/" || (p != "" && '/' !in p)
  }

  predicate HasSuffix(s: string, suffix: string) {
    |suffix| <= |s| && s[|s| - |suffix|..] == suffix
  }

  predicate HasExtension(name: string) {
    exists i :: 0 <= i < |EXTENSIONS| && HasSuffix(name, EXTENSIONS[i])
  }

  // The catalog's check.
  predicate ValidQuadletName(name: string) {
    IsBase(name) && !HasControls(name) && HasExtension(name)
  }

  // The client's check.
  predicate ClientAccepts(name: string) {
    name != "" && IsBase(name) && '/' !in name && '\\' !in name && !HasControls(name) && HasExtension(name)
  }

  // The client takes exactly the catalog's names without a backslash.
  lemma NameChecksDiffer(name: string)
    ensures ClientAccepts(name) <==> ValidQuadletName(name) && '\\' !in name
  {
    assert name == "/" ==> !HasExtension(name);
  }

  // So a loaded application may hold a name no call can use.
  lemma BackslashIsLoaded()
    ensures ValidQuadletName("a\\b.container") && !ClientAccepts("a\\b.container")
  {
    assert HasSuffix("a\\b.container", EXTENSIONS[0]);
  }

  ghost predicate IsExtension(e: string) {
    e in {".container", ".volume", ".network", ".image", ".build", ".pod", ".artifact"}
  }

  // A stem without these characters, and one of the seven extensions.
  ghost predicate Named(name: string, banned: set<char>) {
    exists stem, e :: name == stem + e && IsExtension(e) && forall c :: c in stem ==> c !in banned
  }

  // The catalog takes exactly the names without slash, line break or NUL, and the client
  // those without backslash besides.
  lemma NamesAreTakenIff(name: string)
    ensures ValidQuadletName(name) <==> Named(name, {'/', '\r', '\n', '\0'})
    ensures ClientAccepts(name) <==> Named(name, {'/', '\\', '\r', '\n', '\0'})
  {
    forall stem, e | name == stem + e && IsExtension(e)
      ensures (forall c :: c in stem ==> c !in {'/', '\r', '\n', '\0'}) <==> ValidQuadletName(name)
      ensures (forall c :: c in stem ==> c !in {'/', '\\', '\r', '\n', '\0'}) <==> ClientAccepts(name)
    {
      StemAndExtension(stem, e);
    }
    if HasExtension(name) {
      var i :| 0 <= i < |EXTENSIONS| && HasSuffix(name, EXTENSIONS[i]);
      var stem := name[..|name| - |EXTENSIONS[i]|];
      assert name == stem + EXTENSIONS[i] && IsExtension(EXTENSIONS[i]);
    }
  }

  lemma ExtensionIsListed(e: string) returns (i: nat)
    requires IsExtension(e)
    ensures i < |EXTENSIONS| && EXTENSIONS[i] == e
    ensures forall c :: c in e ==> c !in {'/', '\\', '\r', '\n', '\0'}
  {
    i := if e == ".container" then 0 else if e == ".volume" then 1 else if e == ".network" then 2
      else if e == ".image" then 3 else if e == ".build" then 4 else if e == ".pod" then 5 else 6;
  }

  lemma StemAndExtension(stem: string, e: string)
    requires IsExtension(e)
    ensures (forall c :: c in stem ==> c !in {'/', '\r', '\n', '\0'}) <==> ValidQuadletName(stem + e)
    ensures (forall c :: c in stem ==> c !in {'/', '\\', '\r', '\n', '\0'}) <==> ClientAccepts(stem + e)
  {
    var i := ExtensionIsListed(e);
    hide IsExtension;
    assert HasSuffix(stem + e, EXTENSIONS[i]);
    assert forall c :: c in stem + e <==> c in stem || c in e;
  }
}

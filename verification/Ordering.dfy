// Byte-wise string order and the sorted listings of map keys that the engine and
// the record store iterate over.
module Ordering {

  predicate Less(a: string, b: string) {
    if b == [] then false
    else if a == [] then true
    else a[0] < b[0] || (a[0] == b[0] && Less(a[1..], b[1..]))
  }

  lemma {:induction false} LessTotal(a: string, b: string)
    ensures Less(a, b) || Less(b, a) || a == b
  {
    if a != [] && b != [] && a[0] == b[0] {
      LessTotal(a[1..], b[1..]);
      assert a == [a[0]] + a[1..] && b == [b[0]] + b[1..];
    }
  }

  lemma {:induction false} LessTransitive(a: string, b: string, c: string)
    requires Less(a, b) && Less(b, c)
    ensures Less(a, c)
  {
    if a != [] && a[0] == b[0] == c[0] {
      LessTransitive(a[1..], b[1..], c[1..]);
    }
  }

  lemma {:induction false} LessIrreflexive(a: string)
    ensures !Less(a, a)
  {
    if a != [] {
      LessIrreflexive(a[1..]);
    }
  }

  // At the first place where they differ, a has the smaller character, or it ends there.
  ghost predicate Differs(a: string, b: string, k: nat) {
    k < |b| && k <= |a| && a[..k] == b[..k] && (k == |a| || a[k] < b[k])
  }

  lemma {:induction false} LessIffDiffers(a: string, b: string)
    ensures Less(a, b) <==> exists k: nat :: Differs(a, b, k)
  {
    if a == [] && b != [] {
      assert Differs(a, b, 0);
    } else if a != [] && b != [] {
      LessIffDiffers(a[1..], b[1..]);
      assert a == [a[0]] + a[1..] && b == [b[0]] + b[1..];
      if a[0] < b[0] {
        assert Differs(a, b, 0);
      } else if Less(a, b) {
        var k: nat :| Differs(a[1..], b[1..], k);
        assert a[..k + 1] == [a[0]] + a[1..][..k] && b[..k + 1] == [b[0]] + b[1..][..k];
        assert Differs(a, b, k + 1);
      }
      if k: nat :| Differs(a, b, k) {
        if k > 0 {
          assert a[0] == a[..k][0] == b[..k][0] == b[0];
          assert a[1..][..k - 1] == a[..k][1..] && b[1..][..k - 1] == b[..k][1..];
          assert Differs(a[1..], b[1..], k - 1);
        }
      }
    }
  }

  ghost predicate Ascending(s: seq<string>) {
    forall i, j :: 0 <= i < j < |s| ==> Less(s[i], s[j])
  }

  // s lists exactly the members of keys, each once, in increasing order.
  ghost predicate Lists(s: seq<string>, keys: set<string>) {
    Ascending(s) && forall n :: n in s <==> n in keys
  }

  lemma AscendingIsDistinct(s: seq<string>)
    requires Ascending(s)
    ensures forall i, j :: 0 <= i < |s| && 0 <= j < |s| && s[i] == s[j] ==> i == j
  {
    forall i, j | 0 <= i < |s| && 0 <= j < |s| && s[i] == s[j]
      ensures i == j
    {
      LessIrreflexive(s[i]);
    }
  }

  // A set of names has one sorted listing, so Go's random map order never shows.
  lemma {:induction false} ListingIsUnique(a: seq<string>, b: seq<string>, keys: set<string>)
    requires Lists(a, keys) && Lists(b, keys)
    ensures a == b
    decreases |a|
  {
    NonEmptyListing(a, keys);
    NonEmptyListing(b, keys);
    if a != [] {
      assert a[0] in b;
      assert b[0] in a;
      var i :| 0 <= i < |b| && b[i] == a[0];
      var j :| 0 <= j < |a| && a[j] == b[0];
      if i > 0 && j > 0 {
        LessTransitive(a[0], b[0], a[0]);
        LessIrreflexive(a[0]);
      }
      assert a[0] == b[0];
      AscendingIsDistinct(a);
      AscendingIsDistinct(b);
      var rest := keys - {a[0]};
      TailLists(a, keys);
      TailLists(b, keys);
      ListingIsUnique(a[1..], b[1..], rest);
      assert a == [a[0]] + a[1..] && b == [b[0]] + b[1..];
    }
  }

  lemma NonEmptyListing(s: seq<string>, keys: set<string>)
    requires Lists(s, keys)
    ensures s == [] <==> keys == {}
  {
    if s != [] {
      assert s[0] in keys;
    }
  }

  lemma TailLists(s: seq<string>, keys: set<string>)
    requires s != [] && Lists(s, keys)
    ensures Lists(s[1..], keys - {s[0]})
  {
    AscendingIsDistinct(s);
    forall n
      ensures n in s[1..] <==> n in keys - {s[0]}
    {
      if n in keys && n != s[0] {
        var i :| 0 <= i < |s| && s[i] == n;
        assert s[1..][i - 1] == n;
      }
    }
  }

  // The position at which x belongs in an ascending sequence.
  function Insert(s: seq<string>, x: string): (r: seq<string>)
    requires Ascending(s) && x !in s
    ensures Ascending(r)
    ensures forall n :: n in r <==> n in s || n == x
  {
    if s == [] then [x]
    else if Less(x, s[0]) then
      assert forall j {:trigger s[j]} :: 0 <= j < |s| ==> Less(x, s[j]) by {
        forall j | 0 < j < |s| ensures Less(x, s[j]) { LessTransitive(x, s[0], s[j]); }
      }
      [x] + s
    else
      LessTotal(x, s[0]);
      var r := Insert(s[1..], x);
      assert forall n :: n in r ==> Less(s[0], n);
      assert s == [s[0]] + s[1..];
      [s[0]] + r
  }

  // The engine's key helpers: collect the keys in whatever order the map yields
  // them, then sort.
  method SortedKeys(keys: set<string>) returns (o: seq<string>)
    ensures Lists(o, keys)
  {
    o := [];
    var rest := keys;
    while rest != {}
      invariant rest <= keys
      invariant Lists(o, keys - rest)
      decreases rest
    {
      var n :| n in rest;
      o := Insert(o, n);
      rest := rest - {n};
    }
  }

  // Any set of keys has a listing.
  lemma SomeListing(keys: set<string>) returns (names: seq<string>)
    ensures Lists(names, keys)
    decreases keys
  {
    names := [];
    if keys != {} {
      var n :| n in keys;
      names := SomeListing(keys - {n});
      names := Insert(names, n);
    }
  }
}

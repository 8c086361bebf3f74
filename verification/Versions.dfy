// Podman version strings: parsing, ordering, and the capability profile that hangs on them.
module Versions {
  import opened Model
  import opened Text
  import opened Numbers

  // unicode.IsSpace.
  predicate IsSpace(c: char) {
    c == '\t' || c == '\n' || c == '\U{b}' || c == '\U{c}' || c == '\r' || c == ' ' || c == '\U{85}' || c == '\U{a0}'
    || c == '\U{1680}' || '\U{2000}' <= c <= '\U{200a}' || c == '\U{2028}' || c == '\U{2029}' || c == '\U{202f}'
    || c == '\U{205f}' || c == '\U{3000}'
  }

  function TrimSpace(s: string): string {
    if s != [] && IsSpace(s[0]) then TrimSpace(s[1..])
    else if s != [] && IsSpace(s[|s| - 1]) then TrimSpace(s[..|s| - 1])
    else s
  }

  function TrimPrefix(s: string, prefix: string): string {
    if prefix <= s then s[|prefix|..] else s
  }

  // The dotted numbers of a version, without a leading "v" and anything from the first "-".
  function Fields(v: string): seq<string> {
    Split(Split(TrimPrefix(TrimSpace(v), "v"), '-')[0], '.')
  }

  type Triple = (int, int, int)

  // What a version string means: two or more dotted numbers, the third read as 0 when absent
  // and any further ones ignored.
  function Parsed(v: string): Option<Triple> {
    var f := Fields(v);
    if |f| < 2 || Atoi(f[0]).None? || Atoi(f[1]).None? then None
    else if |f| == 2 then Some((Atoi(f[0]).value, Atoi(f[1]).value, 0))
    else if Atoi(f[2]).None? then None
    else Some((Atoi(f[0]).value, Atoi(f[1]).value, Atoi(f[2]).value))
  }

  method ParseSemver(v: string) returns (a: int, b: int, c: int, ok: bool)
    ensures ok <==> Parsed(v).Some?
    ensures ok ==> Parsed(v) == Some((a, b, c))
    ensures !ok ==> a == b == c == 0
  {
    var trimmed := TrimPrefix(TrimSpace(v), "v");
    var parts := Split(Split(trimmed, '-')[0], '.');
    if |parts| < 2 {
      return 0, 0, 0, false;
    }
    var vals := [0, 0, 0];
    var i := 0;
    while i < |parts| && i < 3
      invariant 0 <= i <= |parts| && i <= 3 && |vals| == 3
      invariant forall j :: 0 <= j < i ==> Atoi(parts[j]) == Some(vals[j])
      invariant forall j :: i <= j < 3 ==> vals[j] == 0
    {
      var n := Atoi(parts[i]);
      if n.None? {
        assert parts == Fields(v);
        return 0, 0, 0, false;
      }
      vals := vals[i := n.value];
      i := i + 1;
    }
    return vals[0], vals[1], vals[2], true;
  }

  function GreaterOrEqual(a: int, b: int, c: int, x: int, y: int, z: int): bool {
    if a != x then a > x
    else if b != y then b > y
    else c >= z
  }

  function VersionAtLeast(v: string, minimum: string): bool {
    match (Parsed(v), Parsed(minimum))
    case (Some(p), Some(q)) => GreaterOrEqual(p.0, p.1, p.2, q.0, q.1, q.2)
    case _ => false
  }

  const SUPPORTED_MINIMUM := "5.8.2"
  const QUADLET_API := "5.8.0"
  const NATIVE_INSTALL := "6.1.0"

  datatype Profile = Profile(show: bool, install: bool, remove: bool, native: bool)

  function ProfileForVersion(v: string): Profile {
    var quadlets := VersionAtLeast(v, QUADLET_API);
    Profile(quadlets, quadlets, quadlets, VersionAtLeast(v, NATIVE_INSTALL))
  }

  predicate IsSupportedVersion(v: string) {
    VersionAtLeast(v, SUPPORTED_MINIMUM)
  }

  // ---- the order ----

  // The place of the first number in which two triples differ, if any.
  ghost predicate Precedes(p: Triple, q: Triple) {
    || p.0 < q.0
    || (p.0 == q.0 && p.1 < q.1)
    || (p.0 == q.0 && p.1 == q.1 && p.2 < q.2)
  }

  // Comparing version strings is the lexicographic order of what they parse to; a string
  // that does not parse is neither above nor below anything.
  lemma AtLeastIsLexicographic(v: string, w: string)
    ensures VersionAtLeast(v, w) <==>
      Parsed(v).Some? && Parsed(w).Some? && !Precedes(Parsed(v).value, Parsed(w).value)
  {
  }

  lemma AtLeastIsTotal(v: string, w: string)
    ensures VersionAtLeast(v, v) <==> Parsed(v).Some?
    ensures VersionAtLeast(v, w) || VersionAtLeast(w, v) <==> Parsed(v).Some? && Parsed(w).Some?
    ensures VersionAtLeast(v, w) && VersionAtLeast(w, v) <==> Parsed(v).Some? && Parsed(v) == Parsed(w)
  {
    hide Parsed;
  }

  lemma AtLeastIsTransitive(u: string, v: string, w: string)
    requires VersionAtLeast(u, v) && VersionAtLeast(v, w)
    ensures VersionAtLeast(u, w)
  {
  }

  // A higher version has every capability of a lower one.
  lemma ProfileIsMonotone(v: string, w: string)
    requires VersionAtLeast(v, w)
    ensures var high, low := ProfileForVersion(v), ProfileForVersion(w);
      && (low.show ==> high.show) && (low.install ==> high.install)
      && (low.remove ==> high.remove) && (low.native ==> high.native)
  {
    if VersionAtLeast(w, QUADLET_API) {
      AtLeastIsTransitive(v, w, QUADLET_API);
    }
    if VersionAtLeast(w, NATIVE_INSTALL) {
      AtLeastIsTransitive(v, w, NATIVE_INSTALL);
    }
  }

  // ---- printing ----

  function PrintVersion(t: (nat, nat, nat)): string {
    Print(t.0) + ['.'] + (Print(t.1) + ['.'] + Print(t.2))
  }

  predicate InRange(t: (nat, nat, nat)) {
    t.0 <= MAX_INT && t.1 <= MAX_INT && t.2 <= MAX_INT
  }

  // A lead and a suffix that Parsed strips again.
  ghost predicate Strips(lead: string, tail: string) {
    && (lead == "" || lead == "v")
    && (tail == "" || (tail[0] == '-' && !IsSpace(tail[|tail| - 1])))
  }

  // Anything in range that is printed, with an optional "v" in front and an optional "-"
  // suffix, is read back as itself.
  lemma PrintedIsParsed(t: (nat, nat, nat), lead: string, tail: string)
    requires InRange(t) && Strips(lead, tail)
    ensures Parsed(lead + PrintVersion(t) + tail) == Some((t.0, t.1, t.2))
  {
    hide PrintVersion, Strips, Atoi, Split, TrimSpace, TrimPrefix, Print;
    PrintedIsPlain(t);
    FieldsOfPlain(PrintVersion(t), lead, tail);
    FieldsOfPrinted(t);
    PrintIsRead(t.0);
    PrintIsRead(t.1);
    PrintIsRead(t.2);
  }

  lemma FieldsOfPlain(core: string, lead: string, tail: string)
    requires core != [] && '-' !in core && IsDigit(core[0]) && IsDigit(core[|core| - 1])
    requires Strips(lead, tail)
    ensures Fields(lead + core + tail) == Split(core, '.')
  {
    var v := lead + core + tail;
    NothingToTrim(core, lead, tail);
    LeadIsTrimmed(core, lead, tail);
    BodyComesFirst(core, tail);
  }

  lemma NothingToTrim(core: string, lead: string, tail: string)
    requires core != [] && IsDigit(core[0]) && IsDigit(core[|core| - 1]) && Strips(lead, tail)
    ensures TrimSpace(lead + core + tail) == lead + core + tail
  {
    var v := lead + core + tail;
    assert v[0] == if lead == "" then core[0] else 'v';
    assert v[|v| - 1] == if tail == "" then core[|core| - 1] else tail[|tail| - 1];
  }

  lemma LeadIsTrimmed(core: string, lead: string, tail: string)
    requires core != [] && IsDigit(core[0]) && Strips(lead, tail)
    ensures TrimPrefix(lead + core + tail, "v") == core + tail
  {
    var v := lead + core + tail;
    if lead == "" {
      assert v == core + tail;
      assert v[0] == core[0];
    } else {
      assert v[1..] == core + tail;
    }
  }

  lemma PrintedIsPlain(t: (nat, nat, nat))
    ensures var core := PrintVersion(t);
      core != [] && '-' !in core && IsDigit(core[0]) && IsDigit(core[|core| - 1])
  {
    var core, last := PrintVersion(t), Print(t.2);
    assert core[0] == Print(t.0)[0];
    assert core[|core| - 1] == last[|last| - 1];
    assert forall i :: 0 <= i < |core| ==> IsDigit(core[i]) || core[i] == '.';
  }

  lemma FieldsOfPrinted(t: (nat, nat, nat))
    ensures Split(PrintVersion(t), '.') == [Print(t.0), Print(t.1), Print(t.2)]
  {
    SplitOne(Print(t.0), '.');
    SplitOne(Print(t.1), '.');
    SplitOne(Print(t.2), '.');
    SplitAt(Print(t.1), '.', Print(t.2));
    SplitAt(Print(t.0), '.', Print(t.1) + ['.'] + Print(t.2));
  }

  // ---- which strings are versions ----

  ghost predicate AllSpace(s: string) {
    forall c :: c in s ==> IsSpace(c)
  }

  lemma {:induction false} SpacesAreTrimmed(before: string, core: string, after: string)
    requires AllSpace(before) && AllSpace(after)
    requires core == [] || (!IsSpace(core[0]) && !IsSpace(core[|core| - 1]))
    ensures TrimSpace(before + core + after) == core
    decreases |before| + |after|
  {
    var s := before + core + after;
    if before != [] {
      assert s[0] == before[0] && s[1..] == before[1..] + core + after;
      SpacesAreTrimmed(before[1..], core, after);
    } else if after != [] {
      var k := |after| - 1;
      assert s[|s| - 1] == after[k] && s[..|s| - 1] == before + core + after[..k];
      if core == [] {
        assert s == after && s[0] == after[0] && s[1..] == before + core + after[1..];
        SpacesAreTrimmed(before, core, after[1..]);
      } else {
        assert s[0] == core[0];
        SpacesAreTrimmed(before, core, after[..k]);
      }
    } else {
      assert s == core;
    }
  }

  // Every string is a core that neither begins nor ends in space, with space around it.
  lemma {:induction false} CoreOf(s: string) returns (before: string, core: string, after: string)
    ensures s == before + core + after && AllSpace(before) && AllSpace(after)
    ensures core == [] || (!IsSpace(core[0]) && !IsSpace(core[|core| - 1]))
    decreases |s|
  {
    before, core, after := [], s, [];
    if s != [] && IsSpace(s[0]) {
      before, core, after := CoreOf(s[1..]);
      before := [s[0]] + before;
    } else if s != [] && IsSpace(s[|s| - 1]) {
      before, core, after := CoreOf(s[..|s| - 1]);
      after := after + [s[|s| - 1]];
    }
  }

  // The numbers these fields write: two or more, of which the first three count.
  ghost predicate Writes(fields: seq<string>, t: Triple) {
    && |fields| >= 2
    && MIN_INT <= t.0 <= MAX_INT && Numeral(fields[0], t.0)
    && MIN_INT <= t.1 <= MAX_INT && Numeral(fields[1], t.1)
    && (if |fields| == 2 then t.2 == 0 else MIN_INT <= t.2 <= MAX_INT && Numeral(fields[2], t.2))
  }

  // A version is read from the dotted fields between an optional "v" and the first "-", with
  // any space around the whole.
  lemma ParsedIffWritten(before: string, lead: string, body: string, tail: string, after: string, t: Triple)
    requires AllSpace(before) && AllSpace(after)
    requires var core := lead + body + tail; core == [] || (!IsSpace(core[0]) && !IsSpace(core[|core| - 1]))
    requires lead == "v" || (lead == "" && (body == "" || body[0] != 'v'))
    requires '-' !in body && (tail == "" || tail[0] == '-')
    ensures Parsed(before + (lead + body + tail) + after) == Some(t) <==> Writes(Split(body, '.'), t)
  {
    FieldsAre(before, lead, body, tail, after);
    hide Fields, Split, AllSpace, IsSpace, Numeral, Atoi;
    var f := Split(body, '.');
    if |f| >= 2 {
      AtoiReadsNumerals(f[0], t.0);
      AtoiReadsNumerals(f[1], t.1);
    }
    if |f| > 2 {
      AtoiReadsNumerals(f[2], t.2);
    }
  }

  lemma FieldsAre(before: string, lead: string, body: string, tail: string, after: string)
    requires AllSpace(before) && AllSpace(after)
    requires var core := lead + body + tail; core == [] || (!IsSpace(core[0]) && !IsSpace(core[|core| - 1]))
    requires lead == "v" || (lead == "" && (body == "" || body[0] != 'v'))
    requires '-' !in body && (tail == "" || tail[0] == '-')
    ensures Fields(before + (lead + body + tail) + after) == Split(body, '.')
  {
    hide *;
    SpacesAreTrimmed(before, lead + body + tail, after);
    FirstLetterIsTrimmed(lead, body, tail);
    BodyComesFirst(body, tail);
    FieldsFollow(before + (lead + body + tail) + after, lead + body + tail, body + tail, body);
  }

  lemma FieldsFollow(v: string, core: string, rest: string, body: string)
    requires TrimSpace(v) == core && TrimPrefix(core, "v") == rest && Split(rest, '-')[0] == body
    ensures Fields(v) == Split(body, '.')
  {
    hide TrimSpace, TrimPrefix, Split;
  }

  lemma BodyComesFirst(body: string, tail: string)
    requires '-' !in body && (tail == "" || tail[0] == '-')
    ensures Split(body + tail, '-')[0] == body
  {
    hide Split;
    SplitOne(body, '-');
    if tail == "" {
      assert body + tail == body;
    } else {
      assert body + tail == body + ['-'] + tail[1..];
      SplitAt(body, '-', tail[1..]);
    }
  }

  lemma FirstLetterIsTrimmed(lead: string, body: string, tail: string)
    requires lead == "v" || (lead == "" && (body == "" || body[0] != 'v'))
    requires tail == "" || tail[0] == '-'
    ensures TrimPrefix(lead + body + tail, "v") == body + tail
  {
    if lead == "v" {
      assert (lead + body + tail)[1..] == body + tail;
    } else {
      assert lead + body + tail == body + tail;
      assert body + tail == "" || (body + tail)[0] != 'v';
    }
  }

  // Every string has such parts.
  lemma PartsOf(v: string) returns (before: string, lead: string, body: string, tail: string, after: string)
    ensures v == before + (lead + body + tail) + after && AllSpace(before) && AllSpace(after)
    ensures var core := lead + body + tail; core == [] || (!IsSpace(core[0]) && !IsSpace(core[|core| - 1]))
    ensures lead == "v" || (lead == "" && (body == "" || body[0] != 'v'))
    ensures '-' !in body && (tail == "" || tail[0] == '-')
  {
    var core;
    before, core, after := CoreOf(v);
    lead := if core != [] && core[0] == 'v' then "v" else "";
    var rest := core[|lead|..];
    body := Split(rest, '-')[0];
    FirstPart(rest);
    tail := rest[|body|..];
    assert core == lead + body + tail;
  }

  lemma {:induction false} FirstPart(s: string)
    ensures var first := Split(s, '-')[0];
      first <= s && '-' !in first && (|first| < |s| ==> s[|first|] == '-')
  {
    if s != [] {
      FirstPart(s[1..]);
    }
  }

  // What each version allows.
  lemma ProfileIs(v: string, t: Triple)
    requires Parsed(v) == Some(t)
    ensures var profile := ProfileForVersion(v);
      && (profile.show == profile.install == profile.remove)
      && (profile.install <==> !Precedes(t, (5, 8, 0))) && (profile.native <==> !Precedes(t, (6, 1, 0)))
    ensures IsSupportedVersion(v) <==> !Precedes(t, (5, 8, 2))
  {
    hide Parsed;
    ThresholdsParse();
  }

  // The four version constants, read.
  lemma ThresholdsParse()
    ensures Parsed(QUADLET_API) == Some((5, 8, 0))
    ensures Parsed(SUPPORTED_MINIMUM) == Some((5, 8, 2))
    ensures Parsed(NATIVE_INSTALL) == Some((6, 1, 0))
  {
    hide Parsed;
    assert QUADLET_API == ['0' + 5 as char, '.', '0' + 8 as char, '.', '0' + 0 as char];
    assert SUPPORTED_MINIMUM == ['0' + 5 as char, '.', '0' + 8 as char, '.', '0' + 2 as char];
    assert NATIVE_INSTALL == ['0' + 6 as char, '.', '0' + 1 as char, '.', '0' + 0 as char];
    PrintedPlainly(5, 8, 0);
    PrintedPlainly(5, 8, 2);
    PrintedPlainly(6, 1, 0);
  }

  // Single digits print as themselves.
  lemma PrintedPlainly(a: nat, b: nat, c: nat)
    requires a < 10 && b < 10 && c < 10
    ensures Parsed(['0' + a as char, '.', '0' + b as char, '.', '0' + c as char]) == Some((a, b, c))
  {
    hide Parsed;
    var s := ['0' + a as char, '.', '0' + b as char, '.', '0' + c as char];
    assert Print(a) == ['0' + a as char] && Print(b) == ['0' + b as char] && Print(c) == ['0' + c as char];
    assert s == "" + PrintVersion((a, b, c)) + "";
    PrintedIsParsed((a, b, c), "", "");
  }

  // Support implies that install and remove are available, but not the other way round: a
  // version between the two thresholds has the API and no support.
  lemma SupportImpliesQuadlets(v: string)
    ensures IsSupportedVersion(v) ==> ProfileForVersion(v).install && ProfileForVersion(v).remove
    ensures ProfileForVersion(v).install && !IsSupportedVersion(v) <==>
      Parsed(v).Some? && Parsed(v).value.0 == 5 && Parsed(v).value.1 == 8 && 0 <= Parsed(v).value.2 < 2
    ensures ProfileForVersion(v).native ==> IsSupportedVersion(v)
  {
    hide Parsed;
    ThresholdsParse();
  }
}

// Catalog applications: what Validate guarantees about names, and how the parameters of a
// request are resolved against the declared inputs.
module Catalogs {
  import opened Model
  import opened Text
  import opened Numbers
  import opened Paths
  import opened QuadletNames

  datatype Kind = StringInput | PathInput | PortInput | IntegerInput | UnknownInput(text: string)

  datatype Input = Input(name: string, kind: Kind, required: bool, default: string)

  datatype DirectorySpec = DirectorySpec(
    name: string, rootId: string, subpathInput: string, containerPath: string, readOnly: bool, securityIntent: string)

  datatype ResourceSpec = ResourceSpec(name: string, templateName: string, start: bool)

  datatype Backup = Backup(strategy: string, consistency: string, provider: string)

  datatype App = App(
    apiVersion: string, kind: string, id: string, name: string, version: string, minPodmanVersion: string,
    inputs: seq<Input>, directories: seq<DirectorySpec>, resources: seq<ResourceSpec>,
    updateMode: string, healthStrategy: string, backup: Backup)

  // ---- validation ----

  // ^[a-z0-9][a-z0-9-]{0,62}$
  ghost predicate SafeId(s: string) {
    1 <= |s| <= 63 && s[0] != '-' && forall i :: 0 <= i < |s| ==> IdChar(s[i])
  }

  method IsSafeId(s: string) returns (ok: bool)
    ensures ok <==> SafeId(s)
  {
    if s == "" || |s| > 63 || s[0] == '-' {
      return false;
    }
    for i := 0 to |s|
      invariant forall j :: 0 <= j < i ==> IdChar(s[j])
    {
      if !('a' <= s[i] <= 'z' || '0' <= s[i] <= '9' || s[i] == '-') {
        return false;
      }
    }
    return true;
  }

  ghost predicate ValidDirectory(d: DirectorySpec, inputs: set<string>) {
    && d.name != "" && d.rootId != "" && d.subpathInput in inputs && d.containerPath != ""
    && d.securityIntent in ["private", "shared", "readonly-media", "cache", "database"]
  }

  function InputNames(inputs: seq<Input>): set<string> {
    set i | 0 <= i < |inputs| :: inputs[i].name
  }

  ghost predicate UniqueInputs(inputs: seq<Input>) {
    forall i, j :: 0 <= i < j < |inputs| ==> inputs[i].name != inputs[j].name
  }

  ghost predicate UniqueResources(resources: seq<ResourceSpec>) {
    forall i, j :: 0 <= i < j < |resources| ==> resources[i].name != resources[j].name
  }

  const API_VERSION := "deployer.home-server-project.io/v1alpha1"

  // Only the provider strategy names a provider, and it must.
  ghost predicate ValidBackup(b: Backup) {
    && b.strategy in ["none", "filesystem", "provider"]
    && b.consistency in ["none", "online", "stop-required", "provider-managed"]
    && (b.strategy == "provider" <==> b.provider != "")
  }

  ghost predicate ValidUpdateMode(mode: string) {
    mode in ["manual-only", "track-latest", "track-lts", "track-stable", "pinned-version", "pinned-digest",
      "catalog-recommended"]
  }

  ghost predicate Valid(app: App) {
    && app.apiVersion == API_VERSION && app.kind == "Application"
    && SafeId(app.id) && app.name != "" && app.version != ""
    && UniqueInputs(app.inputs)
    && (forall i :: 0 <= i < |app.inputs| ==> SafeId(app.inputs[i].name) && !app.inputs[i].kind.UnknownInput?)
    && (forall i :: 0 <= i < |app.directories| ==> ValidDirectory(app.directories[i], InputNames(app.inputs)))
    && app.resources != []
    && UniqueResources(app.resources)
    && (forall i :: 0 <= i < |app.resources| ==> ValidResource(app.resources[i]))
    && app.minPodmanVersion != ""
    && ValidUpdateMode(app.updateMode)
    && app.healthStrategy in ["runtime", "podman-health", "application-provider"]
    && ValidBackup(app.backup)
  }

  ghost predicate ValidResource(r: ResourceSpec) {
    ValidQuadletName(r.name) && r.templateName != "" && (r.templateName == "/" || '/' !in r.templateName)
  }

  method Validate(app: App) returns (ok: bool)
    ensures ok <==> Valid(app)
  {
    hide ValidResource, ValidBackup, SafeId;
    if app.apiVersion != API_VERSION || app.kind != "Application" {
      return false;
    }
    var safe := IsSafeId(app.id);
    if !safe || app.name == "" || app.version == "" {
      return false;
    }
    var inputNames: set<string> := {};
    for i := 0 to |app.inputs|
      invariant inputNames == InputNames(app.inputs[..i])
      invariant UniqueInputs(app.inputs[..i])
      invariant forall j :: 0 <= j < i ==> SafeId(app.inputs[j].name) && !app.inputs[j].kind.UnknownInput?
    {
      var input := app.inputs[i];
      assert app.inputs[..i + 1] == app.inputs[..i] + [input];
      safe := IsSafeId(input.name);
      if !safe || input.kind.UnknownInput? {
        return false;
      }
      if input.name in inputNames {
        var j :| 0 <= j < i && app.inputs[..i][j].name == input.name;
        assert app.inputs[j].name == app.inputs[i].name;
        return false;
      }
      inputNames := inputNames + {input.name};
    }
    assert app.inputs[..|app.inputs|] == app.inputs;
    for i := 0 to |app.directories|
      invariant forall j :: 0 <= j < i ==> ValidDirectory(app.directories[j], inputNames)
    {
      var d := app.directories[i];
      if d.name == "" || d.rootId == "" || d.subpathInput !in inputNames || d.containerPath == "" {
        return false;
      }
      if d.securityIntent !in ["private", "shared", "readonly-media", "cache", "database"] {
        return false;
      }
    }
    ok := ValidateResources(app.resources);
    if !ok || app.minPodmanVersion == "" {
      return false;
    }
    if app.updateMode !in ["manual-only", "track-latest", "track-lts", "track-stable", "pinned-version",
      "pinned-digest", "catalog-recommended"]
    {
      return false;
    }
    if app.healthStrategy !in ["runtime", "podman-health", "application-provider"] {
      return false;
    }
    ok := ValidateContract(app.backup);
  }

  method ValidateContract(b: Backup) returns (ok: bool)
    ensures ok <==> ValidBackup(b)
  {
    if b.strategy !in ["none", "filesystem", "provider"] {
      return false;
    }
    if b.consistency !in ["none", "online", "stop-required", "provider-managed"] {
      return false;
    }
    if b.strategy == "provider" && b.provider == "" {
      return false;
    }
    if b.strategy != "provider" && b.provider != "" {
      return false;
    }
    return true;
  }

  method ValidateResources(resources: seq<ResourceSpec>) returns (ok: bool)
    ensures ok <==>
      resources != [] && UniqueResources(resources) && forall i :: 0 <= i < |resources| ==> ValidResource(resources[i])
  {
    hide ValidQuadletName;
    if resources == [] {
      return false;
    }
    var seen: set<string> := {};
    for i := 0 to |resources|
      invariant forall n :: n in seen <==> exists j :: 0 <= j < i && resources[j].name == n
      invariant forall j, k :: 0 <= j < k < i ==> resources[j].name != resources[k].name
      invariant forall j :: 0 <= j < i ==> ValidResource(resources[j])
    {
      if !ValidQuadletName(resources[i].name) {
        return false;
      }
      if resources[i].templateName == "" || !IsBase(resources[i].templateName) {
        return false;
      }
      if resources[i].name in seen {
        return false;
      }
      seen := seen + {resources[i].name};
    }
    return true;
  }

  // ---- parameters ----

  predicate ValidInput(input: Input, v: string) {
    match input.kind
    case PathInput => CatalogAccepts(v)
    case PortInput => Atoi(v).Some? && 1 <= Atoi(v).value <= 65535
    case IntegerInput => Atoi(v).Some?
    case StringInput => |v| <= 4096
    case UnknownInput(_) => true
  }

  // The declaration a name refers to: the last one, should there be several.
  function Declared(inputs: seq<Input>, name: string): (d: Option<Input>)
    ensures d.Some? <==> name in InputNames(inputs)
    ensures d.Some? ==> d.value.name == name && d.value in inputs
  {
    if inputs == [] then None
    else
      var k := |inputs| - 1;
      assert forall n :: n in InputNames(inputs) <==> n in InputNames(inputs[..k]) || n == inputs[k].name;
      if inputs[k].name == name then Some(inputs[k]) else Declared(inputs[..k], name)
  }

  function Defaults(inputs: seq<Input>): map<string, string> {
    map n | n in InputNames(inputs) :: Declared(inputs, n).value.default
  }

  predicate SuppliedOk(inputs: seq<Input>, supplied: map<string, string>) {
    forall k :: k in supplied ==> SuppliedValueOk(inputs, k, supplied[k])
  }

  predicate SuppliedValueOk(inputs: seq<Input>, k: string, v: string) {
    Declared(inputs, k).Some? && !HasControls(v) && ValidInput(Declared(inputs, k).value, v)
  }

  predicate FinalOk(inputs: seq<Input>, out: map<string, string>) {
    forall i :: 0 <= i < |inputs| && inputs[i].name in out ==> FinalValueOk(inputs[i], out[inputs[i].name])
  }

  predicate FinalValueOk(input: Input, v: string) {
    if v == "" then !input.required else ValidInput(input, v)
  }

  // What resolving means, whatever order the supplied map is walked in.
  function Resolved(inputs: seq<Input>, supplied: map<string, string>): Option<map<string, string>> {
    var out := Defaults(inputs) + supplied;
    if SuppliedOk(inputs, supplied) && FinalOk(inputs, out) then Some(out) else None
  }

  method ResolveParameters(inputs: seq<Input>, supplied: map<string, string>) returns (r: Option<map<string, string>>)
    ensures r == Resolved(inputs, supplied)
  {
    hide ValidInput, SuppliedOk;
    var known, out := Declarations(inputs);
    var taken;
    out, taken := Overlay(inputs, known, out, supplied);
    if !taken {
      return None;
    }
    var final := CheckFinal(inputs, out);
    return if final then Some(out) else None;
  }

  method CheckFinal(inputs: seq<Input>, out: map<string, string>) returns (ok: bool)
    requires InputNames(inputs) <= out.Keys
    ensures ok <==> FinalOk(inputs, out)
  {
    hide ValidInput;
    for i := 0 to |inputs|
      invariant forall j :: 0 <= j < i && inputs[j].name in out ==> FinalValueOk(inputs[j], out[inputs[j].name])
    {
      assert inputs[i].name in InputNames(inputs);
      var v := out[inputs[i].name];
      if (inputs[i].required && v == "") || (v != "" && !ValidInput(inputs[i], v)) {
        assert !FinalValueOk(inputs[i], v);
        return false;
      }
    }
    return true;
  }

  // First loop: every declared input, with its default.
  method Declarations(inputs: seq<Input>) returns (known: map<string, Input>, out: map<string, string>)
    ensures known.Keys == InputNames(inputs) && forall n :: n in known ==> Declared(inputs, n) == Some(known[n])
    ensures out == Defaults(inputs)
  {
    known, out := map[], map[];
    for i := 0 to |inputs|
      invariant known.Keys == InputNames(inputs[..i]) == out.Keys
      invariant forall n :: n in known ==> Declared(inputs[..i], n) == Some(known[n]) && out[n] == known[n].default
    {
      NextNames(inputs, i);
      forall n
        ensures Declared(inputs[..i + 1], n) ==
          if n == inputs[i].name then Some(inputs[i]) else Declared(inputs[..i], n)
      {
        NextDeclared(inputs, i, n);
      }
      known := known[inputs[i].name := inputs[i]];
      out := out[inputs[i].name := inputs[i].default];
    }
    assert inputs[..|inputs|] == inputs;
  }

  // Second loop: the supplied values, in whatever order the map yields them.
  method Overlay(
    inputs: seq<Input>, known: map<string, Input>, defaults: map<string, string>, supplied: map<string, string>)
    returns (out: map<string, string>, ok: bool)
    requires known.Keys == InputNames(inputs) && forall n :: n in known ==> Declared(inputs, n) == Some(known[n])
    ensures ok <==> SuppliedOk(inputs, supplied)
    ensures ok ==> out == defaults + supplied
  {
    hide ValidInput, HasControls, InputNames;
    out := defaults;
    var rest := supplied.Keys;
    while rest != {}
      invariant rest <= supplied.Keys
      invariant forall k :: k in supplied && k !in rest ==> SuppliedValueOk(inputs, k, supplied[k])
      invariant out == defaults + Restrict(supplied, supplied.Keys - rest)
      decreases rest
    {
      var k :| k in rest;
      var v := supplied[k];
      if k !in known || HasControls(v) || !ValidInput(known[k], v) {
        assert !SuppliedValueOk(inputs, k, v);
        return out, false;
      }
      out := out[k := v];
      rest := rest - {k};
    }
    assert Restrict(supplied, supplied.Keys - rest) == supplied;
    return out, true;
  }

  lemma NextNames(inputs: seq<Input>, i: nat)
    requires i < |inputs|
    ensures InputNames(inputs[..i + 1]) == InputNames(inputs[..i]) + {inputs[i].name}
  {
    var all := inputs[..i + 1];
    assert all[..i] == inputs[..i] && all[i] == inputs[i];
    forall n
      ensures n in InputNames(all) <==> n in InputNames(inputs[..i]) || n == inputs[i].name
    {
      if n in InputNames(inputs[..i]) {
        var j :| 0 <= j < i && inputs[..i][j].name == n;
        assert all[j].name == n;
      }
    }
  }

  lemma NextDeclared(inputs: seq<Input>, i: nat, n: string)
    requires i < |inputs|
    ensures Declared(inputs[..i + 1], n) == if n == inputs[i].name then Some(inputs[i]) else Declared(inputs[..i], n)
  {
    assert inputs[..i + 1][..i] == inputs[..i];
  }

  // ---- which parameters resolve, and to what ----

  // What a value of each kind looks like.
  ghost predicate Suits(kind: Kind, v: string) {
    match kind
    case PathInput => PlainPath(v) || v == ".."
    case PortInput => exists n :: 1 <= n <= 65535 && Numeral(v, n)
    case IntegerInput => exists n :: MIN_INT <= n <= MAX_INT && Numeral(v, n)
    case StringInput => |v| <= 4096
    case UnknownInput(_) => true
  }

  lemma ValidSuits(input: Input, v: string)
    ensures ValidInput(input, v) <==> Suits(input.kind, v)
  {
    hide Atoi, Numeral, PlainPath, CatalogAccepts;
    CatalogTakesPlainPaths(v);
    if Atoi(v).Some? {
      AtoiReadsNumerals(v, Atoi(v).value);
    }
    forall n | MIN_INT <= n <= MAX_INT && Numeral(v, n)
      ensures Atoi(v) == Some(n)
    {
      AtoiReadsNumerals(v, n);
    }
  }

  ghost predicate Suppliable(input: Input, v: string) {
    Suits(input.kind, v) && (input.required ==> v != "") && '\r' !in v && '\n' !in v && '\0' !in v
  }

  // An input that may be left to its default.
  ghost predicate Omissible(input: Input) {
    if input.default == "" then !input.required else Suits(input.kind, input.default)
  }

  lemma SuppliedIsChecked(inputs: seq<Input>, supplied: map<string, string>, out: map<string, string>, i: nat)
    requires UniqueInputs(inputs) && i < |inputs| && inputs[i].name in supplied && out == Defaults(inputs) + supplied
    ensures var v := supplied[inputs[i].name];
      Suppliable(inputs[i], v) <==>
        SuppliedValueOk(inputs, inputs[i].name, v) && FinalValueOk(inputs[i], out[inputs[i].name])
  {
    hide ValidInput, Suits, UniqueInputs;
    DeclaredIsIt(inputs, i);
    ValidSuits(inputs[i], supplied[inputs[i].name]);
  }

  lemma OmittedIsChecked(inputs: seq<Input>, supplied: map<string, string>, out: map<string, string>, i: nat)
    requires UniqueInputs(inputs) && i < |inputs| && inputs[i].name !in supplied && out == Defaults(inputs) + supplied
    ensures inputs[i].name in out && out[inputs[i].name] == inputs[i].default
    ensures Omissible(inputs[i]) <==> FinalValueOk(inputs[i], out[inputs[i].name])
  {
    hide ValidInput, Suits, UniqueInputs;
    DeclaredIsIt(inputs, i);
    ValidSuits(inputs[i], inputs[i].default);
    assert inputs[i].name in InputNames(inputs);
  }

  ghost predicate SuppliableFor(inputs: seq<Input>, k: string, v: string) {
    exists i :: 0 <= i < |inputs| && inputs[i].name == k && Suppliable(inputs[i], v)
  }

  ghost predicate AllSuppliable(inputs: seq<Input>, supplied: map<string, string>) {
    forall k :: k in supplied ==> SuppliableFor(inputs, k, supplied[k])
  }

  ghost predicate RestOmissible(inputs: seq<Input>, supplied: map<string, string>) {
    forall i :: 0 <= i < |inputs| && inputs[i].name !in supplied ==> Omissible(inputs[i])
  }

  // Parameters resolve exactly when every supplied value is for a declared input, suits it
  // and holds no control character, and every other input may be left out; and then each
  // input has its supplied value or its default, and there is nothing else.
  lemma ResolvedExactly(inputs: seq<Input>, supplied: map<string, string>)
    requires UniqueInputs(inputs)
    ensures Resolved(inputs, supplied).Some? <==> AllSuppliable(inputs, supplied) && RestOmissible(inputs, supplied)
    ensures Resolved(inputs, supplied).Some? ==> var out := Resolved(inputs, supplied).value;
      && out.Keys == InputNames(inputs)
      && forall i :: 0 <= i < |inputs| ==>
           && inputs[i].name in out
           && out[inputs[i].name] == if inputs[i].name in supplied then supplied[inputs[i].name] else inputs[i].default
  {
    var out := Defaults(inputs) + supplied;
    hide Suppliable, Omissible, ValidInput, UniqueInputs, SuppliedValueOk, FinalValueOk, Defaults;
    forall i | 0 <= i < |inputs|
      ensures inputs[i].name in supplied ==>
        (Suppliable(inputs[i], supplied[inputs[i].name]) <==>
          && SuppliedValueOk(inputs, inputs[i].name, supplied[inputs[i].name])
          && FinalValueOk(inputs[i], out[inputs[i].name]))
      ensures inputs[i].name !in supplied ==>
        && inputs[i].name in out && out[inputs[i].name] == inputs[i].default
        && (Omissible(inputs[i]) <==> FinalValueOk(inputs[i], out[inputs[i].name]))
    {
      if inputs[i].name in supplied {
        SuppliedIsChecked(inputs, supplied, out, i);
      } else {
        OmittedIsChecked(inputs, supplied, out, i);
      }
    }
    if Resolved(inputs, supplied).Some? {
      forall k | k in supplied
        ensures exists i :: 0 <= i < |inputs| && inputs[i].name == k && Suppliable(inputs[i], supplied[k])
      {
        SuppliedIsDeclared(inputs, k, supplied[k]);
      }
      DefaultsAreDeclared(inputs);
    }
    if AllSuppliable(inputs, supplied) && RestOmissible(inputs, supplied) {
      forall i | 0 <= i < |inputs|
        ensures FinalValueOk(inputs[i], out[inputs[i].name])
      {
        if inputs[i].name in supplied {
          OneIsSuppliable(inputs, i, supplied[inputs[i].name]);
        }
      }
      assert SuppliedOk(inputs, supplied) && FinalOk(inputs, out);
    }
  }

  lemma OneIsSuppliable(inputs: seq<Input>, i: nat, v: string)
    requires UniqueInputs(inputs) && i < |inputs|
    ensures SuppliableFor(inputs, inputs[i].name, v) <==> Suppliable(inputs[i], v)
  {
    hide Suppliable;
    if SuppliableFor(inputs, inputs[i].name, v) {
      var j :| 0 <= j < |inputs| && inputs[j].name == inputs[i].name && Suppliable(inputs[j], v);
    }
  }

  lemma DefaultsAreDeclared(inputs: seq<Input>)
    ensures Defaults(inputs).Keys == InputNames(inputs)
  {
  }

  lemma SuppliedIsDeclared(inputs: seq<Input>, k: string, v: string)
    requires SuppliedValueOk(inputs, k, v)
    ensures k in InputNames(inputs) && exists i :: 0 <= i < |inputs| && inputs[i].name == k
  {
    assert k in InputNames(inputs);
  }

  // One more value, or another one, is taken exactly when it can be supplied.
  lemma SupplyingOne(inputs: seq<Input>, supplied: map<string, string>, i: nat, v: string)
    requires UniqueInputs(inputs) && i < |inputs| && Resolved(inputs, supplied).Some?
    ensures Resolved(inputs, supplied[inputs[i].name := v]).Some? <==> Suppliable(inputs[i], v)
  {
    var more := supplied[inputs[i].name := v];
    ResolvedExactly(inputs, supplied);
    ResolvedExactly(inputs, more);
    OneIsSuppliable(inputs, i, v);
    hide Suppliable, SuppliableFor, Omissible, Resolved, UniqueInputs, InputNames;
  }

  function Written(n: int): string {
    if n < 0 then "-" + Print(-n) else Print(n)
  }

  // A port takes the numbers from 1 to 65535 and no others, an integer every number of 64
  // bits.
  lemma NumbersAreTakenIff(inputs: seq<Input>, supplied: map<string, string>, i: nat, n: int)
    requires UniqueInputs(inputs) && i < |inputs| && Resolved(inputs, supplied).Some?
    ensures var taken := Resolved(inputs, supplied[inputs[i].name := Written(n)]).Some?;
      && (inputs[i].kind.PortInput? ==> (taken <==> 1 <= n <= 65535))
      && (inputs[i].kind.IntegerInput? ==> (taken <==> MIN_INT <= n <= MAX_INT))
  {
    SupplyingOne(inputs, supplied, i, Written(n));
    WrittenIsPlain(n);
    WrittenIsNumeral(n);
    hide Written, Numeral, Resolved, UniqueInputs, Print;
    forall m | MIN_INT <= m <= MAX_INT && Numeral(Written(n), m)
      ensures m == n
    {
      WrittenOnce(n, m);
    }
  }

  lemma WrittenIsPlain(n: int)
    ensures Written(n) != "" && '\r' !in Written(n) && '\n' !in Written(n) && '\0' !in Written(n)
  {
    var digits := Print(Size(n));
    assert forall i :: 0 <= i < |digits| ==> IsDigit(digits[i]);
  }

  lemma WrittenIsNumeral(n: int)
    ensures Numeral(Written(n), n)
  {
    assert Zeros(0) + Print(Size(n)) == Print(Size(n));
  }

  // No number in range is written like another number.
  lemma WrittenOnce(n: int, m: int)
    requires MIN_INT <= m <= MAX_INT && Numeral(Written(n), m)
    ensures m == n
  {
    AtoiReadsNumerals(Written(n), m);
    PrintIsRead(Size(n));
    assert IsDigit(Print(Size(n))[0]);
    assert n < 0 ==> Written(n)[1..] == Print(Size(n));
  }

  // A text of up to 4096 characters without controls is taken; a required one may not be
  // empty.
  lemma TextsAreTakenIff(inputs: seq<Input>, supplied: map<string, string>, i: nat, v: string)
    requires UniqueInputs(inputs) && i < |inputs| && inputs[i].kind.StringInput? && Resolved(inputs, supplied).Some?
    ensures Resolved(inputs, supplied[inputs[i].name := v]).Some? <==>
      |v| <= 4096 && (inputs[i].required ==> v != "") && '\r' !in v && '\n' !in v && '\0' !in v
  {
    SupplyingOne(inputs, supplied, i, v);
  }

  // Supplied values win, and every value that is not empty is valid for each declaration of
  // its name, even where a name is declared twice.
  lemma ResolvedShape(inputs: seq<Input>, supplied: map<string, string>)
    requires Resolved(inputs, supplied).Some?
    ensures var out := Resolved(inputs, supplied).value;
      && out.Keys == InputNames(inputs)
      && (forall k :: k in supplied ==> k in out && out[k] == supplied[k])
      && (forall i :: 0 <= i < |inputs| ==>
            var v := out[inputs[i].name];
            (v != "" ==> ValidInput(inputs[i], v)) && (inputs[i].required ==> v != ""))
  {
    assert forall k :: k in supplied ==> k in InputNames(inputs);
  }

  predicate AcceptsEmpty(kind: Kind) {
    kind.StringInput? || kind.UnknownInput?
  }

  // A default that survives being handed back as a supplied value.
  predicate Replayable(input: Input) {
    !HasControls(input.default) && (input.default == "" ==> AcceptsEmpty(input.kind))
  }

  lemma EmptyIsOnlyText(input: Input)
    ensures ValidInput(input, "") <==> AcceptsEmpty(input.kind)
  {
  }

  lemma {:induction false} DeclaredIsIt(inputs: seq<Input>, i: nat)
    requires UniqueInputs(inputs) && i < |inputs|
    ensures Declared(inputs, inputs[i].name) == Some(inputs[i])
  {
    var k := |inputs| - 1;
    if i < k {
      assert inputs[..k][i] == inputs[i];
      DeclaredIsIt(inputs[..k], i);
    }
  }

  // Replanning hands the stored parameters back as if they had been supplied. That gives
  // the same parameters exactly when every input left to its default has a default that can
  // be supplied; otherwise it is refused.
  lemma ReplanningIsStable(inputs: seq<Input>, supplied: map<string, string>)
    requires UniqueInputs(inputs) && Resolved(inputs, supplied).Some?
    ensures var out := Resolved(inputs, supplied).value;
      var stable := forall i :: 0 <= i < |inputs| && inputs[i].name !in supplied ==> Replayable(inputs[i]);
      Resolved(inputs, out) == if stable then Some(out) else None
  {
    var out := Resolved(inputs, supplied).value;
    ResolvedShape(inputs, supplied);
    assert Defaults(inputs) + out == out;
    if forall i :: 0 <= i < |inputs| && inputs[i].name !in supplied ==> Replayable(inputs[i]) {
      forall k | k in out
        ensures SuppliedValueOk(inputs, k, out[k])
      {
        if k !in supplied {
          var input := Declared(inputs, k).value;
          var i :| 0 <= i < |inputs| && inputs[i] == input;
          EmptyIsOnlyText(input);
        }
      }
    } else {
      var i :| 0 <= i < |inputs| && inputs[i].name !in supplied && !Replayable(inputs[i]);
      DeclaredIsIt(inputs, i);
      EmptyIsOnlyText(inputs[i]);
      assert inputs[i].name in InputNames(inputs);
      assert out[inputs[i].name] == inputs[i].default;
      assert !SuppliedValueOk(inputs, inputs[i].name, inputs[i].default);
    }
  }

  // An input for which it fails: an optional port without a default. It can be installed,
  // but the stored parameters are refused when the instance is planned again.
  lemma OptionalPortCannotBeReplanned()
    ensures var inputs := [Input("port", PortInput, false, "")];
      && Resolved(inputs, map[]) == Some(map["port" := ""])
      && Resolved(inputs, map["port" := ""]) == None
  {
    var inputs := [Input("port", PortInput, false, "")];
    assert inputs[0].name in InputNames(inputs);
    assert Declared(inputs, "port") == Some(inputs[0]);
    assert Defaults(inputs) == map["port" := ""];
    assert Defaults(inputs) + map[] == map["port" := ""];
    assert "port" in map["port" := ""];
    assert !SuppliedValueOk(inputs, "port", "");
  }
}

/**
 * The release manifest has two validators: `validate_payload` in
 * tool/updater/manifest.py, applied when it is signed, and `validate_manifest` in
 * windows/updater/contract.h, applied before it is installed. Python counts
 * code points and matches regular expressions; C++ counts UTF-8 bytes and scans
 * characters.
 */
module Manifest {
  import opened Common
  import opened Versions
  import opened Patterns

  datatype Json =
    | Null
    | Bool(flag: bool)
    | Num(n: int)        // written without fraction or exponent
    | Float(r: real)     // written with one
    | Str(s: string)
    | Arr(items: seq<Json>)
    | Obj(fields: map<string, Json>)

  // ----- the two specifications -----

  const Uint32 := 0x1_0000_0000
  const Uint64 := 0x1_0000_0000_0000_0000

  const ManifestFields := {"formatVersion", "version", "channel", "installer", "requirements", "protocol", "data",
    "release"}
  const Channels := {"stable", "beta", "internal"}
  const Letters := "abcdefghijklmnopqrstuvwxyz"
  const DecimalDigits := "0123456789"
  const HexDigits := DecimalDigits + "abcdef"
  const NameCharacters := Letters + DecimalDigits + "._-"

  predicate HasFields(v: Json, names: set<string>) {
    v.Obj? && v.fields.Keys == names
  }

  /** The text in front of the first `+`, or all of it. */
  function BeforePlus(s: string): string {
    if s == "" || s[0] == '+' then "" else [s[0]] + BeforePlus(s[1..])
  }

  function TagFor(version: string): string { "v" + BeforePlus(version) }
  function InstallerFor(version: string): string { "PlugAgente-Setup-" + BeforePlus(version) + ".exe" }

  /** Python's `value == 1`, which also holds of `True` and `1.0`. */
  predicate EqualsOne(v: Json) {
    v == Num(1) || v == Bool(true) || v == Float(1.0)
  }

  ghost predicate PythonVersion(v: Json) {
    v.Str? && |v.s| <= 128 && Full(VersionPattern, v.s)
  }

  ghost predicate PythonRelease(v: Json, version: string) {
    && HasFields(v, {"commit", "tag"})
    && v.fields["commit"].Str? && Full(HexPattern(40), v.fields["commit"].s)
    && v.fields["tag"] == Str(TagFor(version))
  }

  ghost predicate PythonInstaller(v: Json, version: string) {
    && HasFields(v, {"name", "size", "sha256"})
    && v.fields["name"] == Str(InstallerFor(version))
    && v.fields["size"].Num? && v.fields["size"].n > 0
    && v.fields["sha256"].Str? && Full(HexPattern(64), v.fields["sha256"].s)
  }

  predicate PythonProtocol(v: Json) {
    && HasFields(v, {"host", "worker"})
    && EqualsOne(v.fields["host"]) && EqualsOne(v.fields["worker"])
    && v.fields["host"].Num? && v.fields["worker"].Num?
  }

  ghost predicate PythonRequirements(v: Json) {
    && v.Arr? && |v.items| == |set item | item in v.items|
    && forall i | 0 <= i < |v.items| :: v.items[i].Str? && Full(CapabilityPattern, v.items[i].s)
  }

  predicate PythonData(v: Json) {
    && HasFields(v, {"schema", "rollbackProtocol"})
    && v.fields["schema"].Num? && v.fields["schema"].n >= 1
    && v.fields["rollbackProtocol"].Num? && v.fields["rollbackProtocol"].n == 1
  }

  /** `validate_payload` returns without raising. */
  ghost predicate PythonAccepts(v: Json) {
    && HasFields(v, ManifestFields)
    && v.fields["formatVersion"].Num? && v.fields["formatVersion"].n == 1
    && PythonVersion(v.fields["version"])
    && v.fields["channel"].Str? && v.fields["channel"].s in Channels
    && PythonRelease(v.fields["release"], v.fields["version"].s)
    && PythonInstaller(v.fields["installer"], v.fields["version"].s)
    && PythonProtocol(v.fields["protocol"])
    && PythonRequirements(v.fields["requirements"])
    && PythonData(v.fields["data"])
  }

  /** `is_number_unsigned`: the parser keeps a larger or negative number in another type. */
  predicate Unsigned(v: Json) {
    v.Num? && 0 <= v.n < Uint64
  }

  predicate Consists(s: string, allowed: string) {
    forall i | 0 <= i < |s| :: s[i] in allowed
  }

  predicate HexString(s: string, length: nat) {
    |s| == length && Consists(s, HexDigits)
  }

  predicate CapabilityName(s: string) {
    1 <= |s| <= 64 && 'a' <= s[0] <= 'z' && Consists(s, NameCharacters)
  }

  ghost predicate CppVersion(v: Json) {
    v.Str? && |Utf8(v.s)| <= 128 && Full(VersionPattern, Utf8(v.s))
  }

  predicate CppRelease(v: Json, version: string) {
    && HasFields(v, {"commit", "tag"})
    && v.fields["commit"].Str? && HexString(Utf8(v.fields["commit"].s), 40)
    && v.fields["tag"].Str? && Utf8(v.fields["tag"].s) == TagFor(version)
  }

  predicate CppInstaller(v: Json, version: string) {
    && HasFields(v, {"name", "size", "sha256"})
    && v.fields["name"].Str? && Utf8(v.fields["name"].s) == InstallerFor(version)
    && Unsigned(v.fields["size"]) && v.fields["size"].n != 0
    && v.fields["sha256"].Str? && HexString(Utf8(v.fields["sha256"].s), 64)
  }

  predicate CppProtocol(v: Json) {
    && HasFields(v, {"host", "worker"})
    && Unsigned(v.fields["host"]) && Unsigned(v.fields["worker"])
    && v.fields["host"].n == 1 && v.fields["worker"].n == 1
  }

  predicate CppData(v: Json) {
    && HasFields(v, {"schema", "rollbackProtocol"})
    && Unsigned(v.fields["schema"]) && v.fields["schema"].n % Uint32 != 0
    && Unsigned(v.fields["rollbackProtocol"]) && v.fields["rollbackProtocol"].n == 1
  }

  function Names(items: seq<Json>): set<string> {
    set item | item in items && item.Str? :: Utf8(item.s)
  }

  /** Element `i` is a capability name that no earlier element repeats. */
  predicate NewCapability(items: seq<Json>, i: nat)
    requires i < |items|
  {
    items[i].Str? && CapabilityName(Utf8(items[i].s)) && Utf8(items[i].s) !in Names(items[..i])
  }

  predicate NewCapabilities(items: seq<Json>, n: nat)
    requires n <= |items|
  {
    n == 0 || (NewCapabilities(items, n - 1) && NewCapability(items, n - 1))
  }

  predicate CppRequirements(v: Json) {
    v.Arr? && NewCapabilities(v.items, |v.items|)
  }

  /** `validate_manifest` returns without throwing. */
  ghost predicate CppAccepts(v: Json) {
    && HasFields(v, ManifestFields)
    && Unsigned(v.fields["formatVersion"]) && v.fields["formatVersion"].n == 1
    && CppVersion(v.fields["version"])
    && v.fields["channel"].Str? && Utf8(v.fields["channel"].s) in Channels
    && CppRelease(v.fields["release"], Utf8(v.fields["version"].s))
    && CppInstaller(v.fields["installer"], Utf8(v.fields["version"].s))
    && CppProtocol(v.fields["protocol"])
    && CppData(v.fields["data"])
    && CppRequirements(v.fields["requirements"])
  }

  // ----- the C++ validator -----

  /** `require_fields`: as many fields as expected, and each expected one among them. */
  method RequireFields(record: Json, expected: set<string>) returns (ok: bool)
    ensures ok <==> HasFields(record, expected)
  {
    if !record.Obj? || |record.fields| != |expected| {
      return false;
    }
    var todo := expected;
    while todo != {}
      invariant todo <= expected
      invariant expected - todo <= record.fields.Keys
      decreases |todo|
    {
      var name :| name in todo;
      if name !in record.fields {
        return false;
      }
      todo := todo - {name};
    }
    SameSize(expected, record.fields.Keys);
    return true;
  }

  lemma SameSize(a: set<string>, b: set<string>)
    requires a <= b && |a| == |b|
    ensures a == b
  {
    assert b == a + (b - a) && |b| == |a| + |b - a|;
  }

  /** `find_first_not_of`. */
  method FirstNotOf(s: string, allowed: string) returns (r: Option<nat>)
    ensures r.None? <==> Consists(s, allowed)
    ensures r.Some? ==> r.value < |s| && s[r.value] !in allowed && Consists(s[..r.value], allowed)
  {
    for i := 0 to |s|
      invariant Consists(s[..i], allowed)
    {
      if s[i] !in allowed {
        return Some(i);
      }
    }
    return None;
  }

  method IsHex(value: string, length: nat) returns (ok: bool)
    ensures ok <==> HexString(value, length)
  {
    if |value| != length {
      return false;
    }
    var stray := FirstNotOf(value, HexDigits);
    return stray.None?;
  }

  method IsCapability(name: string) returns (ok: bool)
    ensures ok <==> CapabilityName(name)
  {
    var stray := FirstNotOf(name, NameCharacters);
    return !(|name| == 0 || |name| > 64 || name[0] < 'a' || name[0] > 'z' || stray.Some?);
  }

  method IsNew(items: seq<Json>, i: nat, seen: set<string>) returns (ok: bool, name: string)
    requires i < |items| && seen == Names(items[..i])
    ensures ok <==> NewCapability(items, i)
    ensures ok ==> seen + {name} == Names(items[..i + 1])
  {
    ok, name := false, "";
    if items[i].Str? {
      name := Utf8(items[i].s);
      ok := IsCapability(name);
      ok := ok && name !in seen;
      OneMoreName(items, i);
    }
  }

  lemma {:induction false} OneSpoilsAll(items: seq<Json>, i: nat, n: nat)
    requires i <= n <= |items| && !NewCapabilities(items, i)
    ensures !NewCapabilities(items, n)
  {
    if i < n {
      OneSpoilsAll(items, i, n - 1);
    }
  }

  /** The loop over `requirements`, with the set of names seen so far. */
  method ValidateItems(items: seq<Json>) returns (ok: bool)
    ensures ok <==> NewCapabilities(items, |items|)
  {
    var seen: set<string> := {};
    for i := 0 to |items|
      invariant NewCapabilities(items, i)
      invariant seen == Names(items[..i])
    {
      var fine, name := IsNew(items, i, seen);
      if !fine {
        OneSpoilsAll(items, i + 1, |items|);
        return false;
      }
      seen := seen + {name};
    }
    return true;
  }

  method ValidateRequirements(v: Json) returns (r: Result<()>)
    ensures r.Ok? <==> CppRequirements(v)
  {
    if !v.Arr? {
      return Err("invalid_requirements");
    }
    var ok := ValidateItems(v.items);
    return if ok then Ok(()) else Err("invalid_capability");
  }

  lemma OneMoreName(items: seq<Json>, i: nat)
    requires i < |items| && items[i].Str?
    ensures Names(items[..i + 1]) == Names(items[..i]) + {Utf8(items[i].s)}
  {
    assert items[..i + 1] == items[..i] + [items[i]];
  }

  /** `std::regex_match` against the version syntax. */
  method MatchesVersion(s: string) returns (ok: bool)
    ensures ok <==> Full(VersionPattern, s)
  {
    VersionPatternIff(s);
    return WellFormed(s);
  }

  method ValidateRelease(v: Json, version: string) returns (r: Result<()>)
    ensures r.Ok? <==> CppRelease(v, version)
  {
    var shaped := RequireFields(v, {"commit", "tag"});
    if !shaped {
      return Err("invalid_fields");
    }
    if !v.fields["commit"].Str? {
      return Err("type_error");
    }
    var hex := IsHex(Utf8(v.fields["commit"].s), 40);
    if !hex || !v.fields["tag"].Str? || Utf8(v.fields["tag"].s) != TagFor(version) {
      return Err("invalid_release_source");
    }
    return Ok(());
  }

  method ValidateInstaller(v: Json, version: string) returns (r: Result<()>)
    ensures r.Ok? <==> CppInstaller(v, version)
  {
    var shaped := RequireFields(v, {"name", "size", "sha256"});
    if !shaped {
      return Err("invalid_fields");
    }
    if !v.fields["name"].Str? || Utf8(v.fields["name"].s) != InstallerFor(version)
      || !Unsigned(v.fields["size"]) || v.fields["size"].n == 0
    {
      return Err("invalid_installer");
    }
    if !v.fields["sha256"].Str? {
      return Err("type_error");
    }
    var hex := IsHex(Utf8(v.fields["sha256"].s), 64);
    if !hex {
      return Err("invalid_installer");
    }
    return Ok(());
  }

  method ValidateProtocol(v: Json) returns (r: Result<()>)
    ensures r.Ok? <==> CppProtocol(v)
  {
    var shaped := RequireFields(v, {"host", "worker"});
    if !shaped {
      return Err("invalid_fields");
    }
    if !Unsigned(v.fields["host"]) || !Unsigned(v.fields["worker"]) || v.fields["host"].n != 1 ||
      v.fields["worker"].n != 1 {
      return Err("unsupported_protocol");
    }
    return Ok(());
  }

  method ValidateData(v: Json) returns (r: Result<()>)
    ensures r.Ok? <==> CppData(v)
  {
    var shaped := RequireFields(v, {"schema", "rollbackProtocol"});
    if !shaped {
      return Err("invalid_fields");
    }
    if !Unsigned(v.fields["schema"]) || v.fields["schema"].n % Uint32 == 0
      || !Unsigned(v.fields["rollbackProtocol"]) || v.fields["rollbackProtocol"].n != 1
    {
      return Err("unsupported_data_protocol");
    }
    return Ok(());
  }

  /** `validate_manifest`, check by check. */
  method ValidateManifest(v: Json) returns (r: Result<()>)
    ensures r.Ok? <==> CppAccepts(v)
  {
    var shaped := RequireFields(v, ManifestFields);
    if !shaped {
      return Err("invalid_fields");
    }
    if !Unsigned(v.fields["formatVersion"]) || v.fields["formatVersion"].n != 1 {
      return Err("unsupported_manifest");
    }
    if !v.fields["version"].Str? {
      return Err("type_error");
    }
    var version := Utf8(v.fields["version"].s);
    var matches := MatchesVersion(version);
    if |version| > 128 || !matches {
      return Err("invalid_version");
    }
    if !v.fields["channel"].Str? || Utf8(v.fields["channel"].s) !in Channels {
      return Err("invalid_channel");
    }
    r := ValidateRelease(v.fields["release"], version);
    if r.Err? {
      return;
    }
    r := ValidateInstaller(v.fields["installer"], version);
    if r.Err? {
      return;
    }
    r := ValidateProtocol(v.fields["protocol"]);
    if r.Err? {
      return;
    }
    r := ValidateData(v.fields["data"]);
    if r.Err? {
      return;
    }
    r := ValidateRequirements(v.fields["requirements"]);
  }

  // ----- character loops against regular expressions -----

  lemma DigitsAre(c: char)
    ensures c in DecimalDigits <==> '0' <= c <= '9'
  {
    if '0' <= c <= '9' {
      assert DecimalDigits[(c - '0') as int] == c;
    }
  }

  lemma LettersAre(c: char)
    ensures c in Letters <==> 'a' <= c <= 'z'
  {
    if 'a' <= c <= 'z' {
      assert Letters[(c - 'a') as int] == c;
    }
  }

  lemma HexClassIs(c: char)
    ensures In(c, HexClass) <==> c in HexDigits
  {
    assert HexClass.ranges[0] == ('a', 'f') && HexClass.ranges[1] == ('0', '9');
    DigitsAre(c);
    assert c in HexDigits <==> c in DecimalDigits || c in "abcdef";
    if 'a' <= c <= 'f' {
      assert "abcdef"[(c - 'a') as int] == c;
    }
  }

  lemma NameClassIs(c: char)
    ensures In(c, NameClass) <==> c in NameCharacters
  {
    assert NameClass.ranges[0] == ('a', 'z') && NameClass.ranges[1] == ('0', '9');
    assert NameClass.ranges[2] == ('.', '.') && NameClass.ranges[3] == ('_', '_') && NameClass.ranges[4] == ('-', '-');
    DigitsAre(c);
    LettersAre(c);
    assert c in NameCharacters <==> c in Letters || c in DecimalDigits || c in "._-";
    assert "._-"[0] == '.' && "._-"[1] == '_' && "._-"[2] == '-';
  }

  lemma HexMatches(s: string, n: nat)
    ensures Full(HexPattern(n), s) <==> HexString(s, n)
    ensures HexString(s, n) ==> Ascii(s)
  {
    forall i | 0 <= i < |s|
      ensures In(s[i], HexClass) <==> s[i] in HexDigits
    {
      HexClassIs(s[i]);
    }
  }

  lemma NamesAre(s: string)
    ensures Consists(s, NameCharacters) <==> forall i | 0 <= i < |s| :: In(s[i], NameClass)
    ensures Consists(s, NameCharacters) ==> Ascii(s)
  {
    forall i | 0 <= i < |s|
      ensures In(s[i], NameClass) <==> s[i] in NameCharacters
      ensures In(s[i], NameClass) ==> s[i] as int < 128
    {
      NameClassIs(s[i]);
    }
  }

  lemma CapabilityAccepted(s: string)
    requires CapabilityName(s)
    ensures Full(CapabilityPattern, s)
  {
    NamesAre(s);
    assert LowerClass.ranges[0] == ('a', 'z');
    FullThen(One(LowerClass), Many(NameClass, 0, Some(63)), s[..1], s[1..]);
    assert s == s[..1] + s[1..];
  }

  lemma CapabilityIsName(s: string)
    requires Full(CapabilityPattern, s)
    ensures CapabilityName(s)
  {
    var x, y := ThenParts(One(LowerClass), Many(NameClass, 0, Some(63)), s);
    NamesAre(y);
    NameClassIs(x[0]);
    assert NameClass.ranges[0] == ('a', 'z');
    assert s == x + y;
  }

  lemma CapabilityMatches(s: string)
    ensures Full(CapabilityPattern, s) <==> CapabilityName(s)
    ensures CapabilityName(s) ==> Ascii(s)
  {
    NamesAre(s);
    if CapabilityName(s) {
      CapabilityAccepted(s);
    }
    if Full(CapabilityPattern, s) {
      CapabilityIsName(s);
    }
  }

  // ----- agreement -----

  lemma VersionIsAscii(s: string)
    requires Full(VersionPattern, s)
    ensures Ascii(s)
  {
    var f := VersionParts(s);
  }

  lemma VersionsAgree(v: Json)
    ensures PythonVersion(v) <==> CppVersion(v)
    ensures PythonVersion(v) ==> Ascii(v.s) && Utf8(v.s) == v.s
  {
    if v.Str? {
      AsciiTransparent(v.s);
      if Full(VersionPattern, v.s) {
        VersionIsAscii(v.s);
      }
      if Full(VersionPattern, Utf8(v.s)) {
        VersionIsAscii(Utf8(v.s));
      }
    }
  }

  lemma HexAgrees(s: string, n: nat)
    ensures Full(HexPattern(n), s) <==> HexString(Utf8(s), n)
  {
    AsciiTransparent(s);
    HexMatches(s, n);
    HexMatches(Utf8(s), n);
  }

  /** A comparison with an ASCII text gives the same answer on bytes and on code points. */
  lemma TextAgrees(s: string, expected: string)
    requires Ascii(expected)
    ensures Utf8(s) == expected <==> s == expected
  {
    AsciiTransparent(s);
  }

  lemma {:induction false} BeforePlusAscii(version: string)
    requires Ascii(version)
    ensures Ascii(BeforePlus(version))
  {
    if version != "" && version[0] != '+' {
      BeforePlusAscii(version[1..]);
    }
  }

  lemma ExpectedTextsAscii(version: string)
    requires Ascii(version)
    ensures Ascii(TagFor(version)) && Ascii(InstallerFor(version))
  {
    BeforePlusAscii(version);
  }

  lemma ReleasesAgree(v: Json, version: string)
    requires Ascii(version)
    ensures PythonRelease(v, version) <==> CppRelease(v, version)
  {
    ExpectedTextsAscii(version);
    if HasFields(v, {"commit", "tag"}) && v.fields["commit"].Str? && v.fields["tag"].Str? {
      HexAgrees(v.fields["commit"].s, 40);
      TextAgrees(v.fields["tag"].s, TagFor(version));
    }
  }

  lemma InstallersAgree(v: Json, version: string)
    requires Ascii(version)
    ensures CppInstaller(v, version) <==> PythonInstaller(v, version) && v.fields["size"].n < Uint64
  {
    ExpectedTextsAscii(version);
    if HasFields(v, {"name", "size", "sha256"}) && v.fields["name"].Str? && v.fields["sha256"].Str? {
      HexAgrees(v.fields["sha256"].s, 64);
      TextAgrees(v.fields["name"].s, InstallerFor(version));
    }
  }

  lemma CapabilitiesAgree(s: string)
    ensures Full(CapabilityPattern, s) <==> CapabilityName(Utf8(s))
    ensures Full(CapabilityPattern, s) ==> Utf8(s) == s
  {
    AsciiTransparent(s);
    CapabilityMatches(s);
    CapabilityMatches(Utf8(s));
  }

  /** Python compares the length of a list with the size of its set; C++ looks every element up. */
  lemma {:induction false} DistinctIffSetSize(items: seq<Json>)
    ensures |set item | item in items| <= |items|
    ensures |items| == |set item | item in items| <==> forall i, k | 0 <= k < i < |items| :: items[k] != items[i]
  {
    if items != [] {
      var front, last := items[..|items| - 1], items[|items| - 1];
      var before := set item | item in front;
      DistinctIffSetSize(front);
      assert items == front + [last];
      assert (set item | item in items) == before + {last};
      if last in before {
        assert before + {last} == before;
      } else {
        assert forall k | 0 <= k < |front| :: items[k] != last;
      }
    }
  }

  lemma NewCapabilityIs(items: seq<Json>, i: nat)
    requires i < |items| && forall k | 0 <= k < i :: items[k].Str? && Utf8(items[k].s) == items[k].s
    ensures NewCapability(items, i) <==>
      items[i].Str? && Full(CapabilityPattern, items[i].s) && forall k | 0 <= k < i :: items[k] != items[i]
  {
    if items[i].Str? {
      CapabilitiesAgree(items[i].s);
      forall k | 0 <= k < i
        ensures items[k] == items[..i][k] && Utf8(items[k].s) in Names(items[..i])
      {
      }
    }
  }

  ghost predicate AllMatch(items: seq<Json>) {
    forall i | 0 <= i < |items| :: items[i].Str? && Full(CapabilityPattern, items[i].s)
  }

  predicate AllDiffer(items: seq<Json>) {
    forall i, k | 0 <= k < i < |items| :: items[k] != items[i]
  }

  ghost predicate Acceptable(items: seq<Json>) {
    AllMatch(items) && AllDiffer(items)
  }

  lemma OneMoreMatches(items: seq<Json>, item: Json)
    ensures AllMatch(items + [item]) <==> AllMatch(items) && item.Str? && Full(CapabilityPattern, item.s)
    ensures AllDiffer(items + [item]) <==> AllDiffer(items) && forall k | 0 <= k < |items| :: items[k] != item
  {
    var more := items + [item];
    assert more[|items|] == item && forall k | 0 <= k < |items| :: more[k] == items[k];
  }

  lemma MatchesArePlain(items: seq<Json>, n: nat)
    requires n <= |items| && AllMatch(items[..n])
    ensures forall k | 0 <= k < n :: items[k].Str? && Utf8(items[k].s) == items[k].s
  {
    forall k | 0 <= k < n
      ensures items[k].Str? && Utf8(items[k].s) == items[k].s
    {
      assert items[k] == items[..n][k];
      CapabilitiesAgree(items[k].s);
    }
  }

  lemma NextAgrees(items: seq<Json>, i: nat)
    requires i < |items| && Acceptable(items[..i])
    ensures NewCapability(items, i) == Acceptable(items[..i + 1])
  {
    assert items[..i + 1] == items[..i] + [items[i]];
    OneMoreMatches(items[..i], items[i]);
    MatchesArePlain(items, i);
    NewCapabilityIs(items, i);
    assert forall k | 0 <= k < i :: items[..i][k] == items[k];
  }

  lemma ShorterMatches(items: seq<Json>, i: nat)
    requires i < |items| && Acceptable(items[..i + 1])
    ensures Acceptable(items[..i])
  {
    assert items[..i + 1] == items[..i] + [items[i]];
    OneMoreMatches(items[..i], items[i]);
  }

  lemma {:induction false} PrefixAgrees(items: seq<Json>, n: nat)
    requires n <= |items|
    ensures NewCapabilities(items, n) == Acceptable(items[..n])
  {
    if n > 0 {
      PrefixAgrees(items, n - 1);
      if NewCapabilities(items, n - 1) {
        NextAgrees(items, n - 1);
      } else if Acceptable(items[..n]) {
        ShorterMatches(items, n - 1);
      }
    }
  }

  lemma RequirementsAgree(v: Json)
    ensures PythonRequirements(v) <==> CppRequirements(v)
  {
    if v.Arr? {
      PrefixAgrees(v.items, |v.items|);
      assert v.items[..|v.items|] == v.items;
      DistinctIffSetSize(v.items);
    }
  }

  lemma NumbersAgree(protocol: Json, data: Json)
    ensures PythonProtocol(protocol) <==> CppProtocol(protocol)
    ensures CppData(data) <==>
      PythonData(data) && data.fields["schema"].n < Uint64 && data.fields["schema"].n % Uint32 != 0
  {
  }

  /** What the C++ number types can hold: the part of the contract the Python validator does not check. */
  predicate InRange(v: Json) {
    && HasFields(v, ManifestFields)
    && HasFields(v.fields["installer"], {"name", "size", "sha256"})
    && v.fields["installer"].fields["size"].Num? && v.fields["installer"].fields["size"].n < Uint64
    && HasFields(v.fields["data"], {"schema", "rollbackProtocol"})
    && v.fields["data"].fields["schema"].Num? && v.fields["data"].fields["schema"].n < Uint64
    && v.fields["data"].fields["schema"].n % Uint32 != 0
  }

  /**
   * For every JSON value, the updater accepts exactly the manifests the signer
   * accepts whose numbers its integer types can hold.
   */
  lemma ValidatorsAgree(v: Json)
    ensures CppAccepts(v) <==> PythonAccepts(v) && InRange(v)
  {
    if HasFields(v, ManifestFields) {
      VersionsAgree(v.fields["version"]);
      if PythonVersion(v.fields["version"]) && v.fields["channel"].Str? {
        var version := v.fields["version"].s;
        ChannelsAgree(v.fields["channel"].s);
        ReleasesAgree(v.fields["release"], version);
        InstallersAgree(v.fields["installer"], version);
        RequirementsAgree(v.fields["requirements"]);
        NumbersAgree(v.fields["protocol"], v.fields["data"]);
      }
    }
  }

  lemma ChannelsAgree(s: string)
    ensures Utf8(s) in Channels <==> s in Channels
  {
    TextAgrees(s, "stable");
    TextAgrees(s, "beta");
    TextAgrees(s, "internal");
  }

  /** A schema number that is a multiple of 2^32 can be signed and is then refused by every updater. */
  lemma SchemaCanBeLost(v: Json, schema: int)
    requires PythonAccepts(v) && schema > 0 && schema % Uint32 == 0
    ensures
      var data := Obj(v.fields["data"].fields["schema" := Num(schema)]);
      var changed := Obj(v.fields["data" := data]);
      PythonAccepts(changed) && !CppAccepts(changed)
  {
    var data := Obj(v.fields["data"].fields["schema" := Num(schema)]);
    var changed := Obj(v.fields["data" := data]);
    assert data.fields.Keys == v.fields["data"].fields.Keys && changed.fields.Keys == v.fields.Keys;
    assert PythonData(data);
  }
}

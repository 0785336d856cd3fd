/**
 * Version strings: `newer_version` and its comparison of digit strings
 * of any length, with leading zeros (windows/updater/contract.h).
 */
module Versions {
  import opened Common

  type Version = string

  predicate IsDigit(c: char) {
    '0' <= c <= '9'
  }

  predicate Digits(s: string) {
    |s| > 0 && forall i | 0 <= i < |s| :: IsDigit(s[i])
  }

  /** The four numeric fields of `major.minor.patch+build`. */
  datatype Fields = Fields(major: string, minor: string, patch: string, build: string)

  predicate WellFormedFields(f: Fields) {
    Digits(f.major) && Digits(f.minor) && Digits(f.patch) && Digits(f.build)
  }

  function Render(f: Fields): string {
    f.major + ("." + (f.minor + ("." + (f.patch + ("+" + f.build)))))
  }

  /** Membership in the language of the regular expression `[0-9]+\.[0-9]+\.[0-9]+\+[0-9]+`. */
  ghost predicate Matches(s: Version) {
    exists f :: WellFormedFields(f) && Render(f) == s
  }

  // ----- a matcher for that language -----

  /** The length of the longest prefix of digits. */
  function DigitRun(s: string): (n: nat)
    ensures n <= |s|
    ensures forall k | 0 <= k < n :: IsDigit(s[k])
    ensures n < |s| ==> !IsDigit(s[n])
  {
    if s != "" && IsDigit(s[0]) then
      assert forall k | 0 < k < |s| :: s[k] == s[1..][k - 1];
      1 + DigitRun(s[1..])
    else 0
  }

  /** One field and the text behind its separator. */
  function Field(s: string, separator: char): (r: Option<(string, string)>)
    ensures r.Some? ==> Digits(r.value.0) && s == r.value.0 + ([separator] + r.value.1)
  {
    var n := DigitRun(s);
    if n == 0 || n == |s| || s[n] != separator then None else Some((s[..n], s[n + 1..]))
  }

  /** `std::regex_match` against the version syntax, returning the matched groups. */
  function Parse(s: Version): (r: Option<Fields>)
    ensures r.Some? ==> WellFormedFields(r.value) && Render(r.value) == s
  {
    var a := Field(s, '.');
    if a.None? then None else
    var b := Field(a.value.1, '.');
    if b.None? then None else
    var c := Field(b.value.1, '+');
    if c.None? || DigitRun(c.value.1) == 0 || DigitRun(c.value.1) != |c.value.1| then None else
    Some(Fields(a.value.0, b.value.0, c.value.0, c.value.1))
  }

  predicate WellFormed(s: Version) {
    Parse(s).Some?
  }

  lemma FieldOf(digits: string, separator: char, rest: string)
    requires Digits(digits) && !IsDigit(separator)
    ensures Field(digits + ([separator] + rest), separator) == Some((digits, rest))
  {
    var s := digits + ([separator] + rest);
    var n := DigitRun(s);
    assert s[|digits|] == separator;
    assert n == |digits|;
    assert s[..n] == digits && s[n + 1..] == rest;
  }

  /** Parsing inverts rendering, so the four fields of a version string are unique. */
  lemma ParseRender(f: Fields)
    requires WellFormedFields(f)
    ensures Parse(Render(f)) == Some(f)
  {
    FieldOf(f.major, '.', f.minor + ("." + (f.patch + ("+" + f.build))));
    FieldOf(f.minor, '.', f.patch + ("+" + f.build));
    FieldOf(f.patch, '+', f.build);
  }

  /** The matcher accepts exactly the language of the regular expression. */
  lemma WellFormedIffMatches(s: Version)
    ensures WellFormed(s) <==> Matches(s)
  {
    if Matches(s) {
      var f :| WellFormedFields(f) && Render(f) == s;
      ParseRender(f);
    }
  }

  // ----- numeric meaning -----

  function DigitValue(c: char): (d: nat)
    requires IsDigit(c)
    ensures d <= 9
  {
    (c - '0') as nat
  }

  predicate AllDigits(s: string) {
    forall i | 0 <= i < |s| :: IsDigit(s[i])
  }

  function Value(s: string): nat
    requires AllDigits(s)
  {
    if s == "" then 0 else Value(s[..|s| - 1]) * 10 + DigitValue(s[|s| - 1])
  }

  function Values(fields: seq<string>): (r: seq<nat>)
    requires forall k | 0 <= k < |fields| :: AllDigits(fields[k])
    ensures |r| == |fields|
    ensures forall k | 0 <= k < |fields| :: r[k] == Value(fields[k])
  {
    seq(|fields|, k requires 0 <= k < |fields| => Value(fields[k]))
  }

  function FieldList(f: Fields): seq<string> {
    [f.major, f.minor, f.patch, f.build]
  }

  function Numbers(f: Fields): seq<nat>
    requires WellFormedFields(f)
  {
    Values(FieldList(f))
  }

  /** Strict lexicographic order on equally long number lists. */
  predicate LexGreater(x: seq<nat>, y: seq<nat>)
    requires |x| == |y|
  {
    x != [] && (x[0] > y[0] || (x[0] == y[0] && LexGreater(x[1..], y[1..])))
  }

  /** Both versions are well formed and the first is numerically later. */
  predicate Newer(candidate: Version, installed: Version) {
    WellFormed(candidate) && WellFormed(installed) &&
    LexGreater(Numbers(Parse(candidate).value), Numbers(Parse(installed).value))
  }

  lemma {:induction false} LexGreaterTransitive(x: seq<nat>, y: seq<nat>, z: seq<nat>)
    requires |x| == |y| == |z|
    requires LexGreater(x, y) && LexGreater(y, z)
    ensures LexGreater(x, z)
  {
    if x[0] == y[0] && y[0] == z[0] {
      LexGreaterTransitive(x[1..], y[1..], z[1..]);
    }
  }

  lemma {:induction false} LexGreaterIrreflexive(x: seq<nat>)
    ensures !LexGreater(x, x)
  {
    if x != [] {
      LexGreaterIrreflexive(x[1..]);
    }
  }

  lemma {:induction false} LexGreaterTotal(x: seq<nat>, y: seq<nat>)
    requires |x| == |y|
    ensures LexGreater(x, y) || LexGreater(y, x) || x == y
  {
    if x != [] && x[0] == y[0] {
      LexGreaterTotal(x[1..], y[1..]);
      assert x == [x[0]] + x[1..] && y == [y[0]] + y[1..];
    }
  }

  lemma NewerIrreflexive(v: Version)
    ensures !Newer(v, v)
  {
    if WellFormed(v) {
      LexGreaterIrreflexive(Numbers(Parse(v).value));
    }
  }

  lemma NewerTransitive(a: Version, b: Version, c: Version)
    requires Newer(a, b) && Newer(b, c)
    ensures Newer(a, c)
  {
    LexGreaterTransitive(Numbers(Parse(a).value), Numbers(Parse(b).value), Numbers(Parse(c).value));
  }

  /** Two well-formed versions are comparable unless all four numbers agree. */
  lemma NewerTotal(a: Version, b: Version)
    requires WellFormed(a) && WellFormed(b)
    ensures Newer(a, b) || Newer(b, a) || Numbers(Parse(a).value) == Numbers(Parse(b).value)
  {
    LexGreaterTotal(Numbers(Parse(a).value), Numbers(Parse(b).value));
  }

  /** The order as one relation, which a proof unfolds only where it mentions `Newer`. */
  ghost predicate IsOrder(r: iset<(Version, Version)>) {
    forall a, b {:trigger Newer(a, b)} :: (a, b) in r <==> Newer(a, b)
  }

  lemma OrderExists()
    ensures exists r :: IsOrder(r)
  {
    var r := iset p: (Version, Version) | Newer(p.0, p.1);
    assert IsOrder(r);
  }

  ghost function Order(): (r: iset<(Version, Version)>)
    ensures IsOrder(r)
  {
    OrderExists();
    var r :| IsOrder(r);
    r
  }

  ghost predicate Later(a: Version, b: Version) {
    (a, b) in Order()
  }

  lemma LaterIsNewer(a: Version, b: Version)
    ensures Later(a, b) == Newer(a, b)
  {
  }

  lemma LaterTransitive(a: Version, b: Version, c: Version)
    requires Later(a, b) && Later(b, c)
    ensures Later(a, c)
  {
    LaterIsNewer(a, b);
    LaterIsNewer(b, c);
    LaterIsNewer(a, c);
    NewerTransitive(a, b, c);
  }

  lemma LaterIrreflexive(v: Version)
    ensures !Later(v, v)
  {
    LaterIsNewer(v, v);
    NewerIrreflexive(v);
  }

  // ----- the code's comparison of digit strings -----

  /** `part.substr(part.find_first_not_of('0'))`, with "0" for a field of zeros only. */
  function Strip(part: string): string {
    var rest := DropZeros(part);
    if rest == "" then "0" else rest
  }

  function DropZeros(part: string): (r: string)
    ensures r != "" ==> r[0] != '0'
  {
    if part != "" && part[0] == '0' then DropZeros(part[1..]) else part
  }

  /** `operator>` of `std::string`. */
  predicate StringGreater(x: string, y: string) {
    x != "" && (y == "" || x[0] > y[0] || (x[0] == y[0] && StringGreater(x[1..], y[1..])))
  }

  function Pow10(n: nat): (p: nat)
    ensures p > 0
  {
    if n == 0 then 1 else 10 * Pow10(n - 1)
  }

  lemma {:induction false} ValueFromFront(s: string)
    requires AllDigits(s) && s != ""
    ensures Value(s) == DigitValue(s[0]) * Pow10(|s| - 1) + Value(s[1..])
  {
    if |s| > 1 {
      var t := s[..|s| - 1];
      ValueFromFront(t);
      assert s[1..][..|s| - 2] == t[1..];
      Shift(DigitValue(s[0]), Pow10(|s| - 2), Value(t[1..]));
    } else {
      assert s[..0] == "" && s[1..] == "";
    }
  }

  lemma Shift(d: nat, p: nat, v: nat)
    ensures (d * p + v) * 10 == d * (10 * p) + v * 10
  {
  }

  lemma {:induction false} ValueBound(s: string)
    requires AllDigits(s)
    ensures Value(s) < Pow10(|s|)
  {
    if s != "" {
      ValueBound(s[..|s| - 1]);
    }
  }

  lemma {:induction false} DropZerosKeepsValue(s: string)
    requires AllDigits(s)
    ensures AllDigits(DropZeros(s)) && Value(DropZeros(s)) == Value(s)
  {
    if s != "" && s[0] == '0' {
      ValueFromFront(s);
      DropZerosKeepsValue(s[1..]);
    }
  }

  lemma StripKeepsValue(s: string)
    requires AllDigits(s)
    ensures Digits(Strip(s)) && Value(Strip(s)) == Value(s)
    ensures Strip(s)[0] == '0' ==> Strip(s) == "0"
  {
    DropZerosKeepsValue(s);
    assert Value("0") == Value("") * 10 + 0;
  }

  lemma {:induction false} SameLengthOrder(x: string, y: string)
    requires AllDigits(x) && AllDigits(y) && |x| == |y|
    ensures StringGreater(x, y) <==> Value(x) > Value(y)
    ensures x != y ==> Value(x) != Value(y)
  {
    if x != "" {
      ValueFromFront(x);
      ValueFromFront(y);
      ValueBound(x[1..]);
      ValueBound(y[1..]);
      SameLengthOrder(x[1..], y[1..]);
      assert x == [x[0]] + x[1..] && y == [y[0]] + y[1..];
      LeadingDigit(DigitValue(x[0]), DigitValue(y[0]), Pow10(|x| - 1));
      LeadingDigit(DigitValue(y[0]), DigitValue(x[0]), Pow10(|x| - 1));
    }
  }

  lemma LeadingDigit(a: nat, b: nat, p: nat)
    ensures a > b ==> a * p >= b * p + p
  {
    if a > b {
      assert a * p == (b + 1) * p + (a - b - 1) * p;
      assert (a - b - 1) * p >= 0;
    }
  }

  /** Without leading zeros the longer digit string is the larger number. */
  lemma LongerIsLarger(x: string, y: string)
    requires Digits(x) && Digits(y) && |x| > |y| && x[0] != '0'
    ensures Value(x) > Value(y)
  {
    ValueFromFront(x);
    ValueBound(y);
    PowMonotone(|y|, |x| - 1);
    LeadingDigit(DigitValue(x[0]), 0, Pow10(|x| - 1));
  }

  lemma {:induction false} PowMonotone(a: nat, b: nat)
    requires a <= b
    ensures Pow10(a) <= Pow10(b)
    decreases b
  {
    if a < b {
      PowMonotone(a, b - 1);
    }
  }

  /** Comparing stripped fields by length and then as strings compares the numbers. */
  lemma StrippedOrder(a: string, b: string)
    requires AllDigits(a) && AllDigits(b)
    ensures
      var x, y := Strip(a), Strip(b);
      && (|x| != |y| ==> Value(a) != Value(b) && (|x| > |y| <==> Value(a) > Value(b)))
      && (|x| == |y| && x != y ==> Value(a) != Value(b) && (StringGreater(x, y) <==> Value(a) > Value(b)))
      && (x == y ==> Value(a) == Value(b))
  {
    StripKeepsValue(a);
    StripKeepsValue(b);
    var x, y := Strip(a), Strip(b);
    if |x| > |y| {
      LongerIsLarger(x, y);
    } else if |y| > |x| {
      LongerIsLarger(y, x);
    } else {
      SameLengthOrder(x, y);
    }
  }

  /** `version.find('.', start)`, or the length when there is none. */
  function FindDot(s: string, start: nat): (e: nat)
    requires start <= |s|
    ensures start <= e <= |s|
    ensures forall k | start <= k < e :: s[k] != '.'
    ensures e < |s| ==> s[e] == '.'
    decreases |s| - start
  {
    if start == |s| || s[start] == '.' then start else FindDot(s, start + 1)
  }

  function Dotted(fields: seq<string>): string
    requires fields != []
  {
    if |fields| == 1 then fields[0] else fields[0] + ("." + Dotted(fields[1..]))
  }

  function PlusToDot(s: string): (r: string)
    ensures |r| == |s|
    ensures forall i | 0 <= i < |s| :: r[i] == if s[i] == '+' then '.' else s[i]
  {
    seq(|s|, i requires 0 <= i < |s| => if s[i] == '+' then '.' else s[i])
  }

  function StripAll(fields: seq<string>): (r: seq<string>)
    ensures |r| == |fields|
    ensures forall i | 0 <= i < |fields| :: r[i] == Strip(fields[i])
  {
    seq(|fields|, i requires 0 <= i < |fields| => Strip(fields[i]))
  }

  /** The text of the fields from index `i` on, in a dotted list. */
  ghost predicate Remaining(s: string, start: nat, fields: seq<string>, i: nat) {
    && i < |fields| && start < |s|
    && s[start..] == Dotted(fields[i..])
    && forall k | i <= k < |fields| :: Digits(fields[k])
  }

  lemma NextField(s: string, start: nat, fields: seq<string>, i: nat)
    requires Remaining(s, start, fields, i)
    ensures var e := FindDot(s, start);
      && s[start..e] == fields[i]
      && (e == |s| <==> i + 1 == |fields|)
      && (i + 1 < |fields| ==> Remaining(s, e + 1, fields, i + 1))
  {
    var e := FindDot(s, start);
    var f := fields[i];
    var rest := s[start..];
    assert fields[i..][0] == f;
    assert rest[..|f|] == f;
    assert s[start..start + |f|] == f;
    forall k | start <= k < start + |f| ensures s[k] != '.' {
      assert s[k] == f[k - start];
    }
    if i + 1 < |fields| {
      assert fields[i..][1..] == fields[i + 1..];
      assert rest[|f|] == '.';
      assert s[start + |f|] == '.';
      assert e == start + |f|;
      assert rest[|f| + 1..] == Dotted(fields[i + 1..]);
      assert s[e + 1..] == rest[|f| + 1..];
    } else {
      assert rest == f;
      assert e == |s|;
    }
  }

  /** `parts`: split at the dots, dropping each field's leading zeros. */
  method Parts(version: Version, ghost fields: seq<string>) returns (result: seq<string>)
    requires fields != [] && PlusToDot(version) == Dotted(fields)
    requires forall k | 0 <= k < |fields| :: Digits(fields[k])
    ensures result == StripAll(fields)
  {
    var text := PlusToDot(version);
    result := [];
    var start := 0;
    assert text[0..] == text && fields[0..] == fields;
    while start < |text|
      invariant Remaining(text, start, fields, |result|)
      invariant result == StripAll(fields[..|result|])
      decreases |text| - start
    {
      NextField(text, start, fields, |result|);
      var end := FindDot(text, start);
      StripAllSnoc(fields, |result|);
      result := result + [Strip(text[start..end])];
      if end == |text| {
        assert fields[..|result|] == fields;
        break;
      }
      start := end + 1;
    }
  }

  lemma StripAllSnoc(fields: seq<string>, i: nat)
    requires i < |fields|
    ensures StripAll(fields[..i + 1]) == StripAll(fields[..i]) + [Strip(fields[i])]
  {
  }

  lemma PlusToDotConcat(x: string, y: string)
    ensures PlusToDot(x + y) == PlusToDot(x) + PlusToDot(y)
  {
  }

  lemma PlusToDotDigits(x: string)
    requires AllDigits(x)
    ensures PlusToDot(x) == x
  {
  }

  /** Replacing the plus sign turns a version into its four fields joined by dots. */
  lemma PlusToDotRender(f: Fields)
    requires WellFormedFields(f)
    ensures PlusToDot(Render(f)) == Dotted(FieldList(f))
  {
    var t3 := "+" + f.build;
    var t2 := f.patch + t3;
    var t1 := f.minor + ("." + t2);
    PlusToDotConcat("+", f.build);
    PlusToDotDigits(f.build);
    assert PlusToDot(".") == "." && PlusToDot("+") == ".";
    assert PlusToDot(t3) == "." + f.build;
    PlusToDotConcat(f.patch, t3);
    PlusToDotDigits(f.patch);
    assert PlusToDot(t2) == Dotted([f.patch, f.build]);
    PlusToDotConcat(f.minor, "." + t2);
    PlusToDotConcat(".", t2);
    PlusToDotDigits(f.minor);
    assert PlusToDot(t1) == Dotted([f.minor, f.patch, f.build]) by {
      assert [f.minor, f.patch, f.build][1..] == [f.patch, f.build];
    }
    PlusToDotConcat(f.major, "." + t1);
    PlusToDotConcat(".", t1);
    PlusToDotDigits(f.major);
    assert FieldList(f)[1..] == [f.minor, f.patch, f.build];
  }

  /** The first field where the stripped lists differ decides the order. */
  lemma {:induction false} FirstDifference(f: seq<string>, g: seq<string>, index: nat)
    requires index < |f| == |g|
    requires forall k | 0 <= k < |f| :: AllDigits(f[k]) && AllDigits(g[k])
    requires forall k | 0 <= k < index :: Strip(f[k]) == Strip(g[k])
    requires Strip(f[index]) != Strip(g[index])
    ensures LexGreater(Values(f), Values(g)) <==>
      var x, y := Strip(f[index]), Strip(g[index]);
      if |x| != |y| then |x| > |y| else StringGreater(x, y)
  {
    StrippedOrder(f[0], g[0]);
    if index > 0 {
      FirstDifference(f[1..], g[1..], index - 1);
      assert Values(f)[1..] == Values(f[1..]) && Values(g)[1..] == Values(g[1..]);
    }
  }

  lemma AllEqual(f: seq<string>, g: seq<string>)
    requires |f| == |g|
    requires forall k | 0 <= k < |f| :: AllDigits(f[k]) && AllDigits(g[k])
    requires forall k | 0 <= k < |f| :: Strip(f[k]) == Strip(g[k])
    ensures !LexGreater(Values(f), Values(g))
  {
    forall k | 0 <= k < |f| ensures Value(f[k]) == Value(g[k]) {
      StrippedOrder(f[k], g[k]);
    }
    assert Values(f) == Values(g);
    LexGreaterIrreflexive(Values(f));
  }

  /** The comparison loop over two stripped field lists. */
  method CompareParts(left: seq<string>, right: seq<string>, ghost f: seq<string>, ghost g: seq<string>)
    returns (greater: bool)
    requires |f| == |g| && left == StripAll(f) && right == StripAll(g)
    requires forall k | 0 <= k < |f| :: AllDigits(f[k]) && AllDigits(g[k])
    ensures greater == LexGreater(Values(f), Values(g))
  {
    for index := 0 to |left|
      invariant forall k | 0 <= k < index :: left[k] == right[k]
    {
      if |left[index]| != |right[index]| {
        FirstDifference(f, g, index);
        return |left[index]| > |right[index]|;
      }
      if left[index] != right[index] {
        FirstDifference(f, g, index);
        return StringGreater(left[index], right[index]);
      }
    }
    AllEqual(f, g);
    return false;
  }

  /** `newer_version` behind its syntax check. */
  method CompareFields(candidate: Version, installed: Version, ghost f: Fields, ghost g: Fields)
    returns (greater: bool)
    requires WellFormedFields(f) && WellFormedFields(g)
    requires candidate == Render(f) && installed == Render(g)
    ensures greater == LexGreater(Numbers(f), Numbers(g))
  {
    PlusToDotRender(f);
    PlusToDotRender(g);
    var left := Parts(candidate, FieldList(f));
    var right := Parts(installed, FieldList(g));
    greater := CompareParts(left, right, FieldList(f), FieldList(g));
  }

  /**
   * `newer_version`: throws on malformed versions and otherwise decides the
   * strict lexicographic order of the four numbers.
   */
  method NewerVersion(candidate: Version, installed: Version) returns (r: Result<bool>)
    ensures r.Err? <==> !(Matches(candidate) && Matches(installed))
    ensures r.Ok? ==> r.value == Newer(candidate, installed)
  {
    WellFormedIffMatches(candidate);
    WellFormedIffMatches(installed);
    if !WellFormed(candidate) || !WellFormed(installed) {
      return Err("invalid_version");
    }
    var greater := CompareFields(candidate, installed, Parse(candidate).value, Parse(installed).value);
    return Ok(greater);
  }

  // ----- other spellings of a version -----

  /** The same numbers, with more zeros in front. */
  function Padded(v: Version, zeros: nat): (r: Version)
    ensures |r| == |v| + zeros
  {
    if zeros == 0 then v else "0" + Padded(v, zeros - 1)
  }

  lemma ZeroKeepsValue(s: string)
    requires Digits(s)
    ensures Digits("0" + s) && Value("0" + s) == Value(s)
  {
    assert ("0" + s)[1..] == s;
    DropZerosKeepsValue("0" + s);
    DropZerosKeepsValue(s);
  }

  function ZeroBefore(f: Fields): Fields {
    f.(major := "0" + f.major)
  }

  lemma ZeroKeepsNumbers(f: Fields)
    requires WellFormedFields(f)
    ensures WellFormedFields(ZeroBefore(f)) && Numbers(ZeroBefore(f)) == Numbers(f)
  {
    ZeroKeepsValue(f.major);
    assert Numbers(ZeroBefore(f)) == Numbers(f);
  }

  lemma ZeroRenders(f: Fields)
    ensures Render(ZeroBefore(f)) == "0" + Render(f)
  {
  }

  lemma ZeroInFront(v: Version)
    requires WellFormed(v)
    ensures Parse("0" + v) == Some(ZeroBefore(Parse(v).value))
  {
    var f := Parse(v).value;
    ZeroKeepsNumbers(f);
    ZeroRenders(f);
    ParseRender(ZeroBefore(f));
  }

  lemma ZeroNewer(v: Version, x: Version)
    requires Newer(v, x)
    ensures Newer("0" + v, x)
  {
    ZeroInFront(v);
    ZeroKeepsNumbers(Parse(v).value);
  }

  lemma ZeroLater(v: Version, x: Version)
    requires Later(v, x)
    ensures Later("0" + v, x)
  {
    LaterIsNewer(v, x);
    ZeroNewer(v, x);
    LaterIsNewer("0" + v, x);
  }

  lemma {:induction false} PaddedLater(v: Version, zeros: nat, x: Version)
    requires Later(v, x)
    ensures Later(Padded(v, zeros), x)
    decreases zeros
  {
    if zeros > 0 {
      PaddedLater(v, zeros - 1, x);
      ZeroLater(Padded(v, zeros - 1), x);
    }
  }

  lemma {:induction false} LongerThanAll(list: seq<Version>) returns (n: nat)
    ensures n > 0 && forall w | w in list :: |w| < n
    decreases |list|
  {
    if list == [] {
      n := 1;
    } else {
      var m := LongerThanAll(list[1..]);
      n := if |list[0]| < m then m else |list[0]| + 1;
      assert forall w | w in list :: w == list[0] || w in list[1..];
    }
  }

  /** Every version has a spelling that is not on a given list. */
  lemma Respelled(v: Version, list: seq<Version>) returns (z: Version)
    ensures z != v && z !in list && forall x | Later(v, x) :: Later(z, x)
  {
    var n := LongerThanAll(list);
    z := Padded(v, n);
    forall x | Later(v, x)
      ensures Later(z, x)
    {
      PaddedLater(v, n, x);
    }
  }
}

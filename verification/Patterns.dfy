/** Strings as the two manifest validators see them: UTF-8 bytes and regular expressions. */
module Patterns {
  import opened Common
  import opened Versions

  // ----- UTF-8 -----

  predicate Ascii(s: string) {
    forall i | 0 <= i < |s| :: s[i] as int < 128
  }

  function Continuation(code: nat): (c: char)
    ensures 128 <= c as int < 192
  {
    (128 + code % 64) as char
  }

  /** The bytes of one code point, each byte as a `char` below 256. */
  function Utf8Of(c: char): (bytes: string)
    ensures |bytes| > 0
    ensures c as int < 128 ==> bytes == [c]
    ensures c as int >= 128 ==> bytes[0] as int >= 128
  {
    var code := c as int;
    if code < 0x80 then [c]
    else if code < 0x800 then [(0xC0 + code / 0x40) as char, Continuation(code)]
    else if code < 0x1_0000 then [(0xE0 + code / 0x1000) as char, Continuation(code / 0x40), Continuation(code)]
    else [(0xF0 + code / 0x4_0000) as char, Continuation(code / 0x1000), Continuation(code / 0x40), Continuation(code)]
  }

  /** The `std::string` that holds a JSON string. */
  function Utf8(s: string): string {
    if s == "" then "" else Utf8Of(s[0]) + Utf8(s[1..])
  }

  lemma {:induction false} AsciiUnchanged(s: string)
    requires Ascii(s)
    ensures Utf8(s) == s
  {
    if s != "" {
      AsciiUnchanged(s[1..]);
    }
  }

  lemma {:induction false} AsciiOnly(s: string)
    requires Ascii(Utf8(s))
    ensures Ascii(s)
  {
    if s != "" {
      var bytes := Utf8(s);
      assert bytes[0] == Utf8Of(s[0])[0];
      assert Utf8Of(s[0]) == [s[0]];
      assert Utf8(s[1..]) == bytes[1..];
      AsciiOnly(s[1..]);
    }
  }

  /** Only ASCII strings have ASCII bytes, and then the bytes are the string. */
  lemma AsciiTransparent(s: string)
    ensures Ascii(Utf8(s)) || Ascii(s) ==> Utf8(s) == s
    ensures Ascii(Utf8(s)) <==> Ascii(s)
  {
    if Ascii(Utf8(s)) {
      AsciiOnly(s);
    }
    if Ascii(s) {
      AsciiUnchanged(s);
    }
  }

  // ----- regular expressions -----

  datatype Class = Class(ranges: seq<(char, char)>)

  predicate In(c: char, class_: Class) {
    exists i | 0 <= i < |class_.ranges| :: class_.ranges[i].0 <= c <= class_.ranges[i].1
  }

  /** The regular expressions the program uses: one character, a bounded or unbounded repetition, a concatenation. */
  datatype Regex =
    | One(class_: Class)
    | Many(class_: Class, least: nat, most: Option<nat>)
    | Then(first: Regex, second: Regex)

  /** `re.fullmatch`. */
  ghost predicate Full(re: Regex, s: string) {
    match re
    case One(c) => |s| == 1 && In(s[0], c)
    case Many(c, least, most) =>
      least <= |s| && (most.Some? ==> |s| <= most.value) && forall i | 0 <= i < |s| :: In(s[i], c)
    case Then(a, b) => exists i | 0 <= i <= |s| :: Full(a, s[..i]) && Full(b, s[i..])
  }

  const DigitClass := Class([('0', '9')])
  const HexClass := Class([('a', 'f'), ('0', '9')])
  const LowerClass := Class([('a', 'z')])
  const NameClass := Class([('a', 'z'), ('0', '9'), ('.', '.'), ('_', '_'), ('-', '-')])

  const Number := Many(DigitClass, 1, None)
  const Dot := One(Class([('.', '.')]))
  const Plus := One(Class([('+', '+')]))

  /** `[0-9]+\.[0-9]+\.[0-9]+\+[0-9]+` */
  const VersionPattern := Then(Number, Then(Dot, Then(Number, Then(Dot, Then(Number, Then(Plus, Number))))))

  /** `[a-f0-9]{n}` */
  function HexPattern(n: nat): Regex { Many(HexClass, n, Some(n)) }

  /** `[a-z][a-z0-9._-]{0,63}` */
  const CapabilityPattern := Then(One(LowerClass), Many(NameClass, 0, Some(63)))

  lemma FullThen(a: Regex, b: Regex, s: string, t: string)
    requires Full(a, s) && Full(b, t)
    ensures Full(Then(a, b), s + t)
  {
    assert (s + t)[..|s|] == s && (s + t)[|s|..] == t;
  }

  lemma ThenParts(a: Regex, b: Regex, s: string) returns (x: string, y: string)
    requires Full(Then(a, b), s)
    ensures s == x + y && Full(a, x) && Full(b, y)
  {
    var i :| 0 <= i <= |s| && Full(a, s[..i]) && Full(b, s[i..]);
    x, y := s[..i], s[i..];
  }

  lemma NumberIsDigits(s: string)
    ensures Full(Number, s) <==> Digits(s)
  {
    forall i | 0 <= i < |s|
      ensures In(s[i], DigitClass) <==> IsDigit(s[i])
    {
      assert DigitClass.ranges[0] == ('0', '9');
    }
  }

  lemma PointIs(c: char, s: string)
    ensures Full(One(Class([(c, c)])), s) <==> s == [c]
  {
    assert Class([(c, c)]).ranges[0] == (c, c);
  }

  lemma VersionParts(s: string) returns (f: Fields)
    requires Full(VersionPattern, s)
    ensures WellFormedFields(f) && Render(f) == s
  {
    var major, r1 := ThenParts(Number, VersionPattern.second, s);
    var d1, r2 := ThenParts(Dot, VersionPattern.second.second, r1);
    var minor, r3 := ThenParts(Number, VersionPattern.second.second.second, r2);
    var d2, r4 := ThenParts(Dot, VersionPattern.second.second.second.second, r3);
    var patch, r5 := ThenParts(Number, VersionPattern.second.second.second.second.second, r4);
    var p, build := ThenParts(Plus, Number, r5);
    NumberIsDigits(major);
    NumberIsDigits(minor);
    NumberIsDigits(patch);
    NumberIsDigits(build);
    PointIs('.', d1);
    PointIs('.', d2);
    PointIs('+', p);
    f := Fields(major, minor, patch, build);
  }

  lemma VersionMatches(f: Fields)
    requires WellFormedFields(f)
    ensures Full(VersionPattern, Render(f))
  {
    NumberIsDigits(f.major);
    NumberIsDigits(f.minor);
    NumberIsDigits(f.patch);
    NumberIsDigits(f.build);
    PointIs('.', ".");
    PointIs('+', "+");
    FullThen(Plus, Number, "+", f.build);
    FullThen(Number, Then(Plus, Number), f.patch, "+" + f.build);
    FullThen(Dot, VersionPattern.second.second.second.second, ".", f.patch + ("+" + f.build));
    FullThen(Number, VersionPattern.second.second.second, f.minor, "." + (f.patch + ("+" + f.build)));
    FullThen(Dot, VersionPattern.second.second, ".", f.minor + ("." + (f.patch + ("+" + f.build))));
    FullThen(Number, VersionPattern.second, f.major, "." + (f.minor + ("." + (f.patch + ("+" + f.build)))));
  }

  /** The regular expression describes exactly the strings the comparison of versions parses. */
  lemma VersionPatternIff(s: string)
    ensures Full(VersionPattern, s) <==> WellFormed(s)
  {
    if Full(VersionPattern, s) {
      var f := VersionParts(s);
      ParseRender(f);
    }
    if WellFormed(s) {
      VersionMatches(Parse(s).value);
    }
  }
}

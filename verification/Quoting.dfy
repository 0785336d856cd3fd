/**
 * Command-line quoting (`quote` in windows/updater/win_security.cpp) against the
 * documented Microsoft rules by which a C program splits its command line into
 * arguments.
 */
module Quoting {

  const Backslash: char := '\\'
  const DoubleQuote: char := '\"'

  // ----- the splitting rules -----

  predicate Blank(c: char) {
    c == ' ' || c == '\t'
  }

  /** The number of backslashes at the front. */
  function Slashes(s: string): (n: nat)
    ensures n <= |s|
    ensures forall i | 0 <= i < n :: s[i] == Backslash
    ensures n < |s| ==> s[n] != Backslash
  {
    if s != "" && s[0] == Backslash then
      assert forall i | 0 < i < |s| :: s[i] == s[1..][i - 1];
      1 + Slashes(s[1..])
    else 0
  }

  function Repeat(n: nat): (s: string)
    ensures |s| == n && forall i | 0 <= i < n :: s[i] == Backslash
  {
    seq(n, i => Backslash)
  }

  datatype Scan = Scan(argument: string, rest: string)

  function Prepend(text: string, scan: Scan): Scan {
    scan.(argument := text + scan.argument)
  }

  /**
   * The remainder of one argument. Backslashes are literal unless they precede
   * a double quote: then each pair stands for one, and an odd one makes the
   * quote literal. Any other quote opens or closes a quoted part, except that
   * two of them inside a quoted part stand for a literal one. Blanks end the
   * argument outside quoted parts.
   */
  function Argument(s: string, quoted: bool): (r: Scan)
    ensures |r.rest| <= |s|
    ensures s != "" && (quoted || !Blank(s[0])) ==> |r.rest| < |s|
    decreases |s|
  {
    if s == "" then Scan("", "")
    else if s[0] == Backslash then
      var n := Slashes(s);
      if n < |s| && s[n] == DoubleQuote then
        if n % 2 == 1 then Prepend(Repeat(n / 2) + [DoubleQuote], Argument(s[n + 1..], quoted))
        else Prepend(Repeat(n / 2), Argument(s[n..], quoted))
      else Prepend(Repeat(n), Argument(s[n..], quoted))
    else if s[0] == DoubleQuote then
      if quoted && |s| > 1 && s[1] == DoubleQuote then Prepend([DoubleQuote], Argument(s[2..], true))
      else Argument(s[1..], !quoted)
    else if !quoted && Blank(s[0]) then Scan("", s)
    else Prepend([s[0]], Argument(s[1..], quoted))
  }

  /** The argument list of a command line. */
  function Split(s: string): seq<string>
    decreases |s|
  {
    if s == "" then []
    else if Blank(s[0]) then Split(s[1..])
    else
      var scan := Argument(s, false);
      [scan.argument] + Split(scan.rest)
  }

  // ----- quoting -----

  /** The text between the quotes: what each run of backslashes becomes depends on what follows it. */
  function Escape(value: string): string
    decreases |value|
  {
    var n := Slashes(value);
    if n == |value| then Repeat(2 * n)
    else Repeat(if value[n] == DoubleQuote then 2 * n + 1 else n) + ([value[n]] + Escape(value[n + 1..]))
  }

  function Quoted(value: string): string {
    [DoubleQuote] + (Escape(value) + [DoubleQuote])
  }

  lemma SlashesOf(n: nat, s: string)
    requires s == "" || s[0] != Backslash
    ensures Slashes(Repeat(n) + s) == n
  {
    var t := Repeat(n) + s;
    assert n < |t| ==> t[n] == s[0];
  }

  lemma Regroup(a: string, b: string, c: string)
    ensures (a + b) + c == a + (b + c)
  {
  }

  /** `quote`: one pass with a counter of pending backslashes. */
  method Quote(value: string) returns (result: string)
    ensures result == Quoted(value)
  {
    result := [DoubleQuote];
    var slashes: nat := 0;
    assert Repeat(0) + value[0..] == value;
    for i := 0 to |value|
      invariant result + Escape(Repeat(slashes) + value[i..]) == [DoubleQuote] + Escape(value)
    {
      var character := value[i];
      QuoteStep(result, slashes, value, i);
      if character == Backslash {
        slashes := slashes + 1;
      } else {
        result := result + Repeat(if character == DoubleQuote then slashes * 2 + 1 else slashes);
        slashes := 0;
        result := result + [character];
      }
    }
    assert value[|value|..] == "";
    EscapeEnd(slashes);
    result := result + Repeat(slashes * 2);
    Regroup([DoubleQuote], Escape(value), [DoubleQuote]);
    result := result + [DoubleQuote];
  }

  lemma OneMoreSlash(n: nat, rest: string)
    ensures Repeat(n + 1) + rest == Repeat(n) + ([Backslash] + rest)
  {
  }

  lemma QuoteStep(result: string, n: nat, value: string, i: nat)
    requires i < |value|
    ensures value[i] == Backslash ==> Repeat(n + 1) + value[i + 1..] == Repeat(n) + value[i..]
    ensures value[i] != Backslash ==>
      ((result + Repeat(if value[i] == DoubleQuote then n * 2 + 1
        else n)) + [value[i]]) + Escape(Repeat(0) + value[i + 1..])
      == result + Escape(Repeat(n) + value[i..])
  {
    assert value[i..] == [value[i]] + value[i + 1..];
    if value[i] == Backslash {
      OneMoreSlash(n, value[i + 1..]);
    } else {
      EscapeNext(result, n, value[i], value[i + 1..]);
    }
  }

  /** One character other than a backslash, with the run in front of it. */
  lemma EscapeNext(result: string, n: nat, character: char, rest: string)
    requires character != Backslash
    ensures var run := Repeat(if character == DoubleQuote then n * 2 + 1 else n);
      ((result + run) + [character]) + Escape(Repeat(0) + rest) == result + Escape(Repeat(n) + ([character] + rest))
  {
    var run := Repeat(if character == DoubleQuote then n * 2 + 1 else n);
    EscapeRun(n, character, rest);
    Regroup(result, run, [character] + Escape(rest));
    Regroup(result + run, [character], Escape(rest));
    assert Repeat(0) + rest == rest;
  }

  lemma EscapeEnd(n: nat)
    ensures Escape(Repeat(n) + "") == Repeat(n * 2)
  {
    SlashesOf(n, "");
    assert Repeat(n) + "" == Repeat(n);
  }

  lemma EscapeRun(n: nat, character: char, rest: string)
    requires character != Backslash
    ensures Escape(Repeat(n) + ([character] + rest)) ==
      Repeat(if character == DoubleQuote then n * 2 + 1 else n) + ([character] + Escape(rest))
  {
    var value := Repeat(n) + ([character] + rest);
    SlashesOf(n, [character] + rest);
    assert value[n] == character && value[n + 1..] == rest;
  }

  // ----- splitting undoes quoting -----

  /** Behind a closing quote comes the end or a blank. */
  predicate Ends(rest: string) {
    rest == "" || Blank(rest[0])
  }

  lemma ScanSlashes(n: nat, rest: string, quoted: bool)
    requires n > 0 && (rest == "" || (rest[0] != Backslash && rest[0] != DoubleQuote))
    ensures Argument(Repeat(n) + rest, quoted) == Prepend(Repeat(n), Argument(rest, quoted))
  {
    SlashesOf(n, rest);
    assert (Repeat(n) + rest)[n..] == rest;
  }

  lemma ScanEscapedQuote(n: nat, rest: string, quoted: bool)
    ensures Argument(Repeat(2 * n + 1) + ([DoubleQuote] + rest), quoted) ==
      Prepend(Repeat(n) + [DoubleQuote], Argument(rest, quoted))
  {
    var s := Repeat(2 * n + 1) + ([DoubleQuote] + rest);
    SlashesOf(2 * n + 1, [DoubleQuote] + rest);
    assert s[2 * n + 1] == DoubleQuote && s[2 * n + 2..] == rest;
  }

  /** Doubled backslashes in front of the closing quote. */
  lemma ScanClosing(n: nat, rest: string)
    requires Ends(rest)
    ensures Argument(Repeat(2 * n) + ([DoubleQuote] + rest), true) == Scan(Repeat(n), rest)
  {
    var close := [DoubleQuote] + rest;
    assert close[1..] == rest;
    assert Argument(close, true) == Scan("", rest);
    if n > 0 {
      var s := Repeat(2 * n) + close;
      SlashesOf(2 * n, close);
      assert s[2 * n] == DoubleQuote && s[2 * n..] == close;
    } else {
      assert Repeat(2 * n) + close == close;
      assert Repeat(n) == "";
    }
  }

  lemma ScanLiteral(n: nat, character: char, tail: string)
    requires character != Backslash && character != DoubleQuote
    ensures Argument(Repeat(n) + ([character] + tail), true) == Prepend(Repeat(n) + [character], Argument(tail, true))
  {
    var s := [character] + tail;
    assert s[1..] == tail;
    assert Argument(s, true) == Prepend([character], Argument(tail, true));
    if n > 0 {
      ScanSlashes(n, s, true);
    } else {
      assert Repeat(n) + s == s && Repeat(n) + [character] == [character];
    }
    assert Repeat(n) + ([character] + Argument(tail, true).argument) ==
      (Repeat(n) + [character]) + Argument(tail, true).argument;
  }

  function Run(n: nat, character: char): string {
    Repeat(if character == DoubleQuote then 2 * n + 1 else n)
  }

  lemma ScanOne(n: nat, character: char, tail: string)
    requires character != Backslash
    ensures Argument(Run(n, character) + ([character] + tail), true) ==
      Prepend(Repeat(n) + [character], Argument(tail, true))
  {
    if character == DoubleQuote {
      ScanEscapedQuote(n, tail, true);
    } else {
      ScanLiteral(n, character, tail);
    }
  }

  lemma EscapeFront(n: nat, character: char, after: string, close: string)
    requires character != Backslash
    ensures Escape(Repeat(n) + ([character] + after)) + close ==
      Run(n, character) + ([character] + (Escape(after) + close))
  {
    EscapeRun(n, character, after);
    Regroup(Run(n, character), [character] + Escape(after), close);
    Regroup([character], Escape(after), close);
  }

  /** One run of backslashes and the character behind it. */
  lemma ScanStep(n: nat, character: char, after: string, rest: string)
    requires character != Backslash
    requires Argument(Escape(after) + ([DoubleQuote] + rest), true) == Scan(after, rest)
    ensures Argument(Escape(Repeat(n) + ([character] + after)) + ([DoubleQuote] + rest), true) ==
      Scan(Repeat(n) + ([character] + after), rest)
  {
    EscapeFront(n, character, after, [DoubleQuote] + rest);
    ScanOne(n, character, Escape(after) + ([DoubleQuote] + rest));
    Regroup(Repeat(n), [character], after);
  }

  lemma Decompose(value: string)
    returns (n: nat, after: string)
    ensures n <= |value| && |after| + n <= |value|
    ensures n == |value| ==> value == Repeat(n)
    ensures n < |value| ==> value[n] != Backslash && |after| < |value| && value == Repeat(n) + ([value[n]] + after)
  {
    n := Slashes(value);
    after := if n < |value| then value[n + 1..] else "";
  }

  lemma {:induction false} ScanEscape(value: string, rest: string)
    requires Ends(rest)
    ensures Argument(Escape(value) + ([DoubleQuote] + rest), true) == Scan(value, rest)
    decreases |value|
  {
    var n, after := Decompose(value);
    if n == |value| {
      ScanClosing(n, rest);
      SlashesOf(n, "");
      assert Repeat(n) + "" == Repeat(n);
    } else {
      ScanEscape(after, rest);
      ScanStep(n, value[n], after, rest);
    }
  }

  lemma ScanOpening(s: string)
    requires s != "" && s[0] == DoubleQuote
    ensures Argument(s, false) == Argument(s[1..], true)
  {
  }

  lemma ScanQuoted(value: string, rest: string)
    requires Ends(rest)
    ensures Argument(Quoted(value) + rest, false) == Scan(value, rest)
  {
    ScanEscape(value, rest);
    var s := Quoted(value) + rest;
    ScanOpening(s);
    Regroup([DoubleQuote], Escape(value) + [DoubleQuote], rest);
    Regroup(Escape(value), [DoubleQuote], rest);
    assert s[1..] == Escape(value) + ([DoubleQuote] + rest);
  }

  /** The quoted arguments, separated by single spaces. */
  function CommandLine(arguments: seq<string>): string {
    if |arguments| == 0 then ""
    else if |arguments| == 1 then Quoted(arguments[0])
    else Quoted(arguments[0]) + " " + CommandLine(arguments[1..])
  }

  /** A program started with a quoted command line receives exactly the given arguments. */
  lemma {:induction false} SplitCommandLine(arguments: seq<string>)
    ensures Split(CommandLine(arguments)) == arguments
    decreases |arguments|
  {
    if |arguments| == 1 {
      ScanQuoted(arguments[0], "");
      assert Quoted(arguments[0]) + "" == Quoted(arguments[0]);
      assert Split("") == [];
    } else if |arguments| > 1 {
      var rest := CommandLine(arguments[1..]);
      var s := Quoted(arguments[0]) + (" " + rest);
      assert CommandLine(arguments) == s;
      ScanQuoted(arguments[0], " " + rest);
      assert (" " + rest)[1..] == rest;
      SplitCommandLine(arguments[1..]);
      assert Split(" " + rest) == Split(rest);
    }
  }

  /** Different argument lists have different command lines. */
  lemma CommandLineInjective(a: seq<string>, b: seq<string>)
    requires CommandLine(a) == CommandLine(b)
    ensures a == b
  {
    SplitCommandLine(a);
    SplitCommandLine(b);
  }
}

/** The parts of Python's `str` behaviour that the bot's parsing relies on:
    `isdigit`, `int()`, `str()` of an integer, `strip`, `split` (on whitespace,
    with and without `maxsplit=1`, and on a separator), `partition` and
    `lower`.  Decimal digits and case are ASCII only; whitespace is the full
    set that `str.isspace` accepts. */
module Text {
  import opened Common

  // ---------------------------------------------------------------------------
  // Characters

  predicate IsDigit(c: char) {
    '0' <= c <= '9'
  }

  /** `c.isspace()` */
  predicate IsSpace(c: char) {
    || c == ' '
    || '\t' <= c <= '\r'
    || '\U{1c}' <= c <= '\U{1f}'
    || c == '\U{85}' || c == '\U{a0}' || c == '\U{1680}'
    || '\U{2000}' <= c <= '\U{200a}'
    || c == '\U{2028}' || c == '\U{2029}' || c == '\U{202f}' || c == '\U{205f}'
    || c == '\U{3000}'
  }

  predicate IsLowerHex(c: char) {
    IsDigit(c) || 'a' <= c <= 'f'
  }

  /** Non-empty and made of decimal digits only: what `int()` reads as a
      number without a sign. */
  predicate IsDigits(s: string) {
    |s| > 0 && AllDigits(s)
  }

  /** Characters that `str.isdigit` accepts although they are not decimal
      digits, so `int()` rejects them (Unicode's Numeric_Type=Digit class):
      superscript and subscript digits, Ethiopic digits, the circled,
      parenthesised, full-stop and dingbat digits, and the Kharoshthi, Rumi,
      Brahmi and comma/full-stop digit forms of the supplementary planes. */
  predicate IsDigitSymbol(c: char) {
    exists k | 0 <= k < |DigitSymbolRanges| :: DigitSymbolRanges[k].0 <= c <= DigitSymbolRanges[k].1
  }

  /** The inclusive ranges of `IsDigitSymbol`. */
  const DigitSymbolRanges: seq<(char, char)> := [
    ('\U{b2}', '\U{b3}'), ('\U{b9}', '\U{b9}'),
    ('\U{1369}', '\U{1371}'), ('\U{19da}', '\U{19da}'),
    ('\U{2070}', '\U{2070}'), ('\U{2074}', '\U{2079}'), ('\U{2080}', '\U{2089}'),
    ('\U{2460}', '\U{2468}'), ('\U{2474}', '\U{247c}'), ('\U{2488}', '\U{2490}'),
    ('\U{24ea}', '\U{24ea}'), ('\U{24f5}', '\U{24fd}'), ('\U{24ff}', '\U{24ff}'),
    ('\U{2776}', '\U{277e}'), ('\U{2780}', '\U{2788}'), ('\U{278a}', '\U{2792}'),
    ('\U{10a40}', '\U{10a43}'), ('\U{10e60}', '\U{10e68}'), ('\U{11052}', '\U{1105a}'),
    ('\U{1f100}', '\U{1f10a}')]

  /** The superscript two is a digit symbol. */
  lemma SuperscriptTwoIsDigitSymbol()
    ensures IsDigitSymbol('\U{b2}') && PyIsDigit("\U{b2}")
  {
    assert DigitSymbolRanges[0].0 <= '\U{b2}' <= DigitSymbolRanges[0].1;
  }

  /** `s.isdigit()`: non-empty, and every character a decimal digit or a
      digit symbol. */
  predicate PyIsDigit(s: string) {
    |s| > 0 && forall i | 0 <= i < |s| :: IsDigit(s[i]) || IsDigitSymbol(s[i])
  }

  predicate AllDigits(s: string) {
    forall i | 0 <= i < |s| :: IsDigit(s[i])
  }

  predicate NoSpace(s: string) {
    forall i | 0 <= i < |s| :: !IsSpace(s[i])
  }

  function DigitValue(c: char): nat
    requires IsDigit(c)
  {
    c as int - '0' as int
  }

  function DigitChar(d: nat): (c: char)
    requires d < 10
    ensures IsDigit(c) && DigitValue(c) == d
  {
    ('0' as int + d) as char
  }

  // ---------------------------------------------------------------------------
  // Integers

  /** The number a string of decimal digits denotes (the empty string gives 0). */
  function DigitsValue(s: string): nat
    requires AllDigits(s)
  {
    if s == [] then 0 else DigitsValue(s[..|s| - 1]) * 10 + DigitValue(s[|s| - 1])
  }

  /** `str(n)` for `n >= 0`: the shortest decimal numeral of `n`. */
  function NatToString(n: nat): (s: string)
    ensures IsDigits(s) && DigitsValue(s) == n
    ensures |s| > 1 ==> s[0] != '0'
  {
    if n < 10 then [DigitChar(n)]
    else
      var s := NatToString(n / 10) + [DigitChar(n % 10)];
      assert s[..|s| - 1] == NatToString(n / 10);
      s
  }

  /** `str(i)` for any integer. */
  function IntToString(i: int): string {
    if i < 0 then "-" + NatToString(-i) else NatToString(i)
  }

  /** `int(s)`: surrounding whitespace, an optional sign and at least one digit.
      `None` is the `ValueError` Python raises for anything else. */
  function ParseInt(s: string): Option<int> {
    var t := Strip(s);
    var signed := |t| > 0 && (t[0] == '+' || t[0] == '-');
    var digits := if signed then t[1..] else t;
    if !IsDigits(digits) then None
    else
      var v: int := DigitsValue(digits);
      if signed && t[0] == '-' then Some(-v) else Some(v)
  }

  /** The message of the `ValueError` that `int(s)` raises. */
  function IntError(s: string): Error {
    ValueError("invalid literal for int() with base 10: '" + s + "'")
  }

  lemma StripNoSpace(s: string)
    requires |s| > 0 && NoSpace(s)
    ensures Strip(s) == s
  {
    assert !IsSpace(s[0]) && !IsSpace(s[|s| - 1]);
  }

  lemma DigitsNoSpace(s: string)
    requires AllDigits(s)
    ensures NoSpace(s)
  {
    forall k | 0 <= k < |s| ensures !IsSpace(s[k]) {
      assert IsDigit(s[k]);
    }
  }

  /** `int(s)` of a string of decimal digits is the number they denote. */
  lemma ParseIntOfDigits(s: string)
    requires IsDigits(s)
    ensures ParseInt(s) == Some(DigitsValue(s) as int)
  {
    DigitsNoSpace(s);
    StripNoSpace(s);
    assert IsDigit(s[0]);
  }

  /** Every decimal numeral passes `isdigit`. */
  lemma DigitsArePyDigits(s: string)
    ensures IsDigits(s) ==> PyIsDigit(s)
  {
  }

  /** Of the strings `isdigit` accepts, `int()` reads exactly the decimal ones. */
  lemma ParseIntOfPyDigits(s: string)
    requires PyIsDigit(s)
    ensures ParseInt(s).Some? <==> IsDigits(s)
  {
    assert NoSpace(s) by {
      forall k | 0 <= k < |s| ensures !IsSpace(s[k]) {
        assert IsDigit(s[k]) || IsDigitSymbol(s[k]);
      }
    }
    StripNoSpace(s);
    assert IsDigit(s[0]) || IsDigitSymbol(s[0]);
    if IsDigits(s) {
      ParseIntOfDigits(s);
    }
  }

  /** `int(str(i)) == i`: every integer the bot renders into a command parses back. */
  lemma ParseIntToString(i: int)
    ensures ParseInt(IntToString(i)) == Some(i)
  {
    var s := IntToString(i);
    var digits := NatToString(if i < 0 then -i else i);
    DigitsNoSpace(digits);
    if i < 0 {
      assert s == "-" + digits && s[1..] == digits;
      assert NoSpace(s) by {
        forall k | 0 <= k < |s| ensures !IsSpace(s[k]) {
          if k > 0 { assert s[k] == digits[k - 1]; }
        }
      }
      StripNoSpace(s);
    } else {
      StripNoSpace(s);
      assert IsDigit(s[0]);
    }
  }

  /** `str(i)` is one word with no whitespace anywhere. */
  lemma IntToStringWord(i: int)
    ensures IsWord(IntToString(i)) && Trimmed(IntToString(i))
  {
    var s := IntToString(i);
    var digits := NatToString(if i < 0 then -i else i);
    DigitsNoSpace(digits);
    if i < 0 {
      assert s == "-" + digits;
      forall k | 0 <= k < |s| ensures !IsSpace(s[k]) {
        if k > 0 { assert s[k] == digits[k - 1]; }
      }
    }
  }

  // ---------------------------------------------------------------------------
  // Stripping

  /** `s.lstrip()` */
  function StripLeft(s: string): (r: string)
    ensures |r| <= |s| && r == s[|s| - |r|..]
    ensures r == [] || !IsSpace(r[0])
    ensures forall k | 0 <= k < |s| - |r| :: IsSpace(s[k])
  {
    if |s| > 0 && IsSpace(s[0]) then StripLeft(s[1..]) else s
  }

  /** `s.rstrip()` */
  function StripRight(s: string): (r: string)
    ensures |r| <= |s| && r == s[..|r|]
    ensures r == [] || !IsSpace(r[|r| - 1])
    ensures forall k | |r| <= k < |s| :: IsSpace(s[k])
  {
    if |s| > 0 && IsSpace(s[|s| - 1]) then StripRight(s[..|s| - 1]) else s
  }

  /** `s.strip()` */
  function Strip(s: string): string {
    StripRight(StripLeft(s))
  }

  /** No whitespace at either end: what `strip` leaves. */
  predicate Trimmed(s: string) {
    s == [] || (!IsSpace(s[0]) && !IsSpace(s[|s| - 1]))
  }

  lemma TrimmedStrip(s: string)
    requires Trimmed(s)
    ensures Strip(s) == s
  {
    StripLeftNoLeadingSpace(s);
  }

  /** Stripping removes a space added at either end of a trimmed string. */
  lemma StripPadded(s: string)
    requires Trimmed(s)
    ensures Strip(" " + s + " ") == s
    ensures Strip(s + " ") == s
    ensures Strip(" " + s) == s
  {
    assert (" " + s + " ")[1..] == s + " ";
    assert (" " + s)[1..] == s;
    StripLeftNoLeadingSpace(s);
    assert (s + " ")[..|s|] == s;
    if s != [] {
      assert (s + " ")[0] == s[0];
      StripLeftNoLeadingSpace(s + " ");
    } else {
      assert (" ")[1..] == [];
    }
  }

  // ---------------------------------------------------------------------------
  // Splitting on whitespace

  /** The longest prefix of `s` that holds no whitespace. */
  function WordPrefix(s: string): (w: string)
    ensures |w| <= |s| && w == s[..|w|] && NoSpace(w)
    ensures |w| == |s| || IsSpace(s[|w|])
  {
    if |s| == 0 || IsSpace(s[0]) then []
    else
      var w := [s[0]] + WordPrefix(s[1..]);
      assert w == s[..|w|];
      w
  }

  predicate IsWord(w: string) {
    |w| > 0 && NoSpace(w)
  }

  predicate AllWords(ws: seq<string>) {
    forall k | 0 <= k < |ws| :: IsWord(ws[k])
  }

  /** `s.split()`: the maximal runs of non-whitespace characters, in order. */
  function Words(s: string): (ws: seq<string>)
    ensures AllWords(ws)
    ensures ws == [] <==> StripLeft(s) == []
    decreases |s|
  {
    var t := StripLeft(s);
    if t == [] then []
    else
      var w := WordPrefix(t);
      assert IsWord(w);
      var rest := Words(t[|w|..]);
      AllWordsCons(w, rest);
      [w] + rest
  }

  lemma AllWordsCons(w: string, rest: seq<string>)
    requires IsWord(w) && AllWords(rest)
    ensures AllWords([w] + rest)
  {
    forall k | 0 <= k < |rest| + 1 ensures IsWord(([w] + rest)[k]) {
      if k > 0 { assert ([w] + rest)[k] == rest[k - 1]; }
    }
  }

  lemma WordsStripLeft(s: string)
    ensures Words(StripLeft(s)) == Words(s)
  {
    StripLeftIdempotent(s);
  }

  lemma StripLeftIdempotent(s: string)
    ensures StripLeft(StripLeft(s)) == StripLeft(s)
  {
    var t := StripLeft(s);
    StripLeftNoLeadingSpace(t);
  }

  /** `s.split(maxsplit=1)`: the first word and, when anything but whitespace
      follows it, the rest of the string after the whitespace that ends it.
      It has as many parts as `s.split()` has words, but never more than two. */
  function SplitOnce(s: string): (parts: seq<string>)
    ensures |parts| <= 2
    ensures |parts| == |Words(s)| || (|parts| == 2 && |Words(s)| > 2)
    ensures |parts| > 0 ==> parts[0] == Words(s)[0]
  {
    var t := StripLeft(s);
    if t == [] then []
    else
      var w := WordPrefix(t);
      var rest := StripLeft(t[|w|..]);
      WordsStripLeft(t[|w|..]);
      assert Words(s) == [w] + Words(rest);
      if rest == [] then [w] else [w, rest]
  }

  /** A word, one space and a rest that starts with a non-space split once
      into the word and the rest. */
  lemma SplitOnceWordRest(w: string, rest: string)
    requires IsWord(w) && rest != [] && !IsSpace(rest[0])
    ensures SplitOnce(w + " " + rest) == [w, rest]
  {
    var s := w + " " + rest;
    assert s[0] == w[0];
    StripLeftNoLeadingSpace(s);
    WordPrefixOfWord(w, " " + rest);
    assert s == w + (" " + rest);
    assert s[|w|..] == " " + rest;
    assert (" " + rest)[1..] == rest;
    StripLeftNoLeadingSpace(rest);
  }

  /** Words separated by single spaces. */
  function Unwords(ws: seq<string>): string {
    if |ws| == 0 then ""
    else if |ws| == 1 then ws[0]
    else ws[0] + " " + Unwords(ws[1..])
  }

  lemma StripLeftNoLeadingSpace(s: string)
    requires s == [] || !IsSpace(s[0])
    ensures StripLeft(s) == s
  {
  }

  lemma {:induction false} WordPrefixOfWord(w: string, rest: string)
    requires NoSpace(w)
    requires rest == [] || IsSpace(rest[0])
    ensures WordPrefix(w + rest) == w
  {
    if |w| > 0 {
      assert (w + rest)[1..] == w[1..] + rest;
      WordPrefixOfWord(w[1..], rest);
    }
  }

  /** A word followed by whitespace or nothing is the first word. */
  lemma WordsCons(w: string, rest: string)
    requires IsWord(w)
    requires rest == [] || IsSpace(rest[0])
    ensures Words(w + rest) == [w] + Words(rest)
  {
    var s := w + rest;
    StripLeftNoLeadingSpace(s);
    WordPrefixOfWord(w, rest);
    assert s[|w|..] == rest;
  }

  /** A leading space does not change the words. */
  lemma WordsAfterSpace(s: string)
    ensures Words(" " + s) == Words(s)
  {
    assert (" " + s)[1..] == s;
    assert StripLeft(" " + s) == StripLeft(s);
    WordsStripLeft(" " + s);
    WordsStripLeft(s);
  }

  lemma AllWordsTail(ws: seq<string>)
    requires |ws| > 0 && AllWords(ws)
    ensures AllWords(ws[1..])
  {
    forall k | 0 <= k < |ws| - 1 ensures IsWord(ws[1..][k]) {
      assert ws[1..][k] == ws[k + 1];
    }
  }

  /** Splitting space-separated words gives the words back. */
  lemma {:induction false} WordsOfUnwords(ws: seq<string>)
    requires AllWords(ws)
    ensures Words(Unwords(ws)) == ws
  {
    if |ws| == 1 {
      WordsOfWord(ws[0]);
      HeadTail(ws);
    } else if |ws| > 1 {
      AllWordsTail(ws);
      WordsOfUnwords(ws[1..]);
      WordsOfUnwordsStep(ws[0], Unwords(ws[1..]), ws[1..]);
      HeadTail(ws);
    }
  }

  lemma WordsOfWord(w: string)
    requires IsWord(w)
    ensures Words(w) == [w]
  {
    AppendNil(w);
    WordsCons(w, []);
    WordsNil();
  }

  lemma WordsNil()
    ensures Words([]) == []
  {
  }

  lemma AppendNil<T>(s: seq<T>)
    ensures s + [] == s
  {
  }

  lemma HeadTail<T>(s: seq<T>)
    requires |s| > 0
    ensures [s[0]] + s[1..] == s
  {
  }

  lemma ConcatAssoc(a: string, b: string, c: string)
    ensures a + b + c == a + (b + c)
  {
  }

  lemma WordsOfUnwordsStep(w: string, u: string, rest: seq<string>)
    requires IsWord(w) && Words(u) == rest
    ensures Words(w + " " + u) == [w] + rest
  {
    ConcatAssoc(w, " ", u);
    WordsCons(w, " " + u);
    WordsAfterSpace(u);
  }

  // ---------------------------------------------------------------------------
  // Splitting on a separator

  /** `s.split(sep)` for a one-character separator: always at least one part,
      no part holds the separator, and joining the parts with it restores `s`. */
  function SplitOn(s: string, sep: char): (parts: seq<string>)
    ensures |parts| >= 1
    ensures forall k | 0 <= k < |parts| :: sep !in parts[k]
    ensures JoinWith(parts, [sep]) == s
  {
    if s == [] then [""]
    else
      var rest := SplitOn(s[1..], sep);
      if s[0] == sep then
        JoinCons([""], rest, [sep]);
        [""] + rest
      else
        var parts := [[s[0]] + rest[0]] + rest[1..];
        assert JoinWith(parts, [sep]) == s by {
          if |rest| == 1 {
          } else {
            assert parts[1..] == rest[1..];
            assert JoinWith(rest, [sep]) == rest[0] + [sep] + JoinWith(rest[1..], [sep]);
          }
        }
        parts
  }

  /** `sep.join(parts)` */
  function JoinWith(parts: seq<string>, sep: string): string {
    if |parts| == 0 then ""
    else if |parts| == 1 then parts[0]
    else parts[0] + sep + JoinWith(parts[1..], sep)
  }

  lemma JoinCons(head: seq<string>, rest: seq<string>, sep: string)
    requires |head| == 1 && |rest| >= 1
    ensures JoinWith(head + rest, sep) == head[0] + sep + JoinWith(rest, sep)
  {
    assert (head + rest)[1..] == rest;
  }

  /** Splitting parts joined by a separator they do not contain gives the parts back. */
  lemma {:induction false} SplitOnJoin(parts: seq<string>, sep: char)
    requires |parts| >= 1
    requires forall k | 0 <= k < |parts| :: sep !in parts[k]
    ensures SplitOn(JoinWith(parts, [sep]), sep) == parts
  {
    if |parts| == 1 {
      SplitOnFree(parts[0], sep);
    } else {
      SplitOnJoin(parts[1..], sep);
      SplitOnPrefix(parts[0], JoinWith(parts[1..], [sep]), sep);
    }
  }

  lemma {:induction false} SplitOnFree(s: string, sep: char)
    requires sep !in s
    ensures SplitOn(s, sep) == [s]
  {
    if s != [] {
      SplitOnFree(s[1..], sep);
    }
  }

  lemma {:induction false} SplitOnPrefix(p: string, rest: string, sep: char)
    requires sep !in p
    ensures SplitOn(p + [sep] + rest, sep) == [p] + SplitOn(rest, sep)
  {
    if p == [] {
      assert p + [sep] + rest == [sep] + rest;
      assert ([sep] + rest)[1..] == rest;
    } else {
      assert (p + [sep] + rest)[1..] == p[1..] + [sep] + rest;
      SplitOnPrefix(p[1..], rest, sep);
      assert [p[0]] + p[1..] == p;
    }
  }

  /** `s.partition(sep)[2]`: what follows the first `sep`, or "" without one. */
  function AfterFirst(s: string, sep: char): (r: string)
    ensures sep !in s ==> r == ""
    ensures sep in s ==> |r| < |s| && r == s[|s| - |r|..]
  {
    if s == [] then ""
    else if s[0] == sep then s[1..]
    else
      assert sep in s ==> sep in s[1..];
      AfterFirst(s[1..], sep)
  }

  /** What follows the first separator when the text before it holds none. */
  lemma {:induction false} AfterFirstPrefix(p: string, rest: string, sep: char)
    requires sep !in p
    ensures AfterFirst(p + [sep] + rest, sep) == rest
  {
    if p == [] {
      assert p + [sep] + rest == [sep] + rest;
      assert ([sep] + rest)[1..] == rest;
    } else {
      assert (p + [sep] + rest)[1..] == p[1..] + [sep] + rest;
      AfterFirstPrefix(p[1..], rest, sep);
    }
  }

  // ---------------------------------------------------------------------------
  // Case

  function LowerChar(c: char): char {
    if 'A' <= c <= 'Z' then (c as int + 32) as char else c
  }

  /** `s.lower()` on ASCII letters. */
  function Lower(s: string): (r: string)
    ensures |r| == |s|
    ensures forall k | 0 <= k < |s| :: r[k] == LowerChar(s[k])
  {
    seq(|s|, k requires 0 <= k < |s| => LowerChar(s[k]))
  }

  /** Lowering twice is lowering once. */
  lemma LowerIdempotent(s: string)
    ensures Lower(Lower(s)) == Lower(s)
  {
  }
}

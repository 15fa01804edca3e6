/** The Python string operations the core relies on, over `string` = `seq<char>`:
    `str.isspace`, `strip`/`rstrip`, `startswith`, `in`, `split(sep)`, `split()`,
    `splitlines`, `"\n".join`, `lower`, `replace`, and the integer and one-decimal
    float texts that f-strings produce and `int()`/`float()` read back. */
module Text {
  import opened Wrappers

  /** Python's `str.isspace` for one character; `strip`, `rstrip` and `split()` use this set. */
  predicate IsSpace(c: char) {
    c == ' ' || ('\t' <= c <= '\r') || ('\U{1C}' <= c <= '\U{1F}') || c == '\U{85}' || c == '\U{A0}'
    || c == '\U{1680}' || ('\U{2000}' <= c <= '\U{200A}') || c == '\U{2028}' || c == '\U{2029}'
    || c == '\U{202F}' || c == '\U{205F}' || c == '\U{3000}'
  }

  /** The characters at which Python's `str.splitlines` ends a line. */
  predicate IsLineBreak(c: char) {
    c == '\n' || c == '\r' || c == '\U{0B}' || c == '\U{0C}' || ('\U{1C}' <= c <= '\U{1E}')
    || c == '\U{85}' || c == '\U{2028}' || c == '\U{2029}'
  }

  predicate IsDigit(c: char) { '0' <= c <= '9' }

  /** The regular-expression class `\w`, restricted to ASCII. */
  predicate IsWordChar(c: char) { ('a' <= c <= 'z') || ('A' <= c <= 'Z') || IsDigit(c) || c == '_' }

  predicate AllDigits(s: string) { forall i | 0 <= i < |s| :: IsDigit(s[i]) }

  predicate AllSpace(s: string) { forall i | 0 <= i < |s| :: IsSpace(s[i]) }

  predicate StartsWith(s: string, prefix: string) {
    |prefix| <= |s| && s[..|prefix|] == prefix
  }

  /** `s.rstrip()`: the longest prefix of `s` that does not end in whitespace. */
  function RStrip(s: string): (r: string)
    ensures r <= s
    ensures r == [] || !IsSpace(r[|r| - 1])
    ensures forall i | |r| <= i < |s| :: IsSpace(s[i])
    decreases |s|
  {
    if s == [] || !IsSpace(s[|s| - 1]) then s else RStrip(s[..|s| - 1])
  }

  /** `s.lstrip()`: the longest suffix of `s` that does not start with whitespace. */
  function LStrip(s: string): (r: string)
    ensures |r| <= |s| && r == s[|s| - |r|..]
    ensures r == [] || !IsSpace(r[0])
    ensures forall i | 0 <= i < |s| - |r| :: IsSpace(s[i])
    decreases |s|
  {
    if s == [] || !IsSpace(s[0]) then s else LStrip(s[1..])
  }

  /** `s.strip()`. */
  function Strip(s: string): string {
    LStrip(RStrip(s))
  }

  lemma {:induction false} RStripPadded(s: string, pad: string)
    requires s == [] || !IsSpace(s[|s| - 1])
    requires AllSpace(pad)
    ensures RStrip(s + pad) == s
    decreases |pad|
  {
    if pad == [] {
      assert s + pad == s;
    } else {
      assert (s + pad)[..|s + pad| - 1] == s + pad[..|pad| - 1];
      RStripPadded(s, pad[..|pad| - 1]);
    }
  }

  lemma {:induction false} LStripPadded(pad: string, s: string)
    requires s == [] || !IsSpace(s[0])
    requires AllSpace(pad)
    ensures LStrip(pad + s) == s
    decreases |pad|
  {
    if pad == [] {
      assert pad + s == s;
    } else {
      assert (pad + s)[1..] == pad[1..] + s;
      LStripPadded(pad[1..], s);
    }
  }

  /** Stripping text whose ends are not whitespace, after padding it with whitespace. */
  lemma StripPadded(pad: string, s: string, tail: string)
    requires s != [] && !IsSpace(s[0]) && !IsSpace(s[|s| - 1])
    requires AllSpace(pad) && AllSpace(tail)
    ensures Strip(pad + s + tail) == s
  {
    RStripPadded(pad + s, tail);
    LStripPadded(pad, s);
  }

  /** The position of the first occurrence of `sub` in `s` (`s.find(sub)`), if any. */
  function Find(s: string, sub: string): (r: Option<nat>)
    ensures r.Some? ==> r.value + |sub| <= |s| && s[r.value..r.value + |sub|] == sub
    ensures r.Some? ==> forall j | 0 <= j < r.value :: !StartsWith(s[j..], sub)
    ensures r.None? ==> forall j | 0 <= j <= |s| :: !StartsWith(s[j..], sub)
    decreases |s|
  {
    if StartsWith(s, sub) then Some(0)
    else if s == [] then None
    else
      assert forall j | 1 <= j <= |s| :: s[1..][j - 1..] == s[j..];
      match Find(s[1..], sub)
      case Some(i) => Some(i + 1)
      case None => None
  }

  /** `sub in s`. */
  predicate Contains(s: string, sub: string) {
    Find(s, sub).Some?
  }

  lemma AbsentFirstChar(s: string, sub: string)
    requires sub != [] && sub[0] !in s
    ensures !Contains(s, sub)
  {
  }

  /** `line.split(sep)[1]` for a line that starts with `sep`: the text after the leading
      separator, up to the next occurrence of it. */
  function FieldText(line: string, sep: string): (r: string)
    requires StartsWith(line, sep)
    ensures r <= line[|sep|..]
  {
    var rest := line[|sep|..];
    match Find(rest, sep)
    case Some(i) => rest[..i]
    case None => rest
  }

  /** `s.replace(c, '')` for a one-character `c`. */
  function Remove(s: string, c: char): (r: string)
    ensures c !in r
    ensures c !in s ==> r == s
    decreases |s|
  {
    if s == [] then [] else (if s[0] == c then [] else [s[0]]) + Remove(s[1..], c)
  }

  /** Removing a character that only ends the string drops that last character. */
  lemma {:induction false} RemoveSnoc(s: string, c: char)
    requires c !in s
    ensures Remove(s + [c], c) == s
    decreases |s|
  {
    if s == [] {
      assert s + [c] == [c];
    } else {
      assert (s + [c])[0] == s[0];
      assert (s + [c])[1..] == s[1..] + [c];
      RemoveSnoc(s[1..], c);
    }
  }

  /** `sep.join(parts)`. */
  function Join(parts: seq<string>, sep: string): string
    decreases |parts|
  {
    if |parts| == 0 then "" else if |parts| == 1 then parts[0] else parts[0] + sep + Join(parts[1..], sep)
  }

  /** The index of the first line-break character of `s`, or `|s|`. */
  function LineEnd(s: string): (i: nat)
    ensures i <= |s| && (i < |s| ==> IsLineBreak(s[i]))
    ensures forall j | 0 <= j < i :: !IsLineBreak(s[j])
    decreases |s|
  {
    if s == [] || IsLineBreak(s[0]) then 0 else 1 + LineEnd(s[1..])
  }

  /** `s.splitlines()`: lines without their terminators; `"\r\n"` is one terminator and a
      final terminator opens no empty line. */
  function SplitLines(s: string): (r: seq<string>)
    ensures forall k | 0 <= k < |r| :: forall j | 0 <= j < |r[k]| :: !IsLineBreak(r[k][j])
    decreases |s|
  {
    if s == [] then []
    else
      var i := LineEnd(s);
      if i == |s| then [s]
      else
        var width := if s[i] == '\r' && i + 1 < |s| && s[i + 1] == '\n' then 2 else 1;
        [s[..i]] + SplitLines(s[i + width..])
  }

  /** The index of the first whitespace character of `s`, or `|s|`. */
  function WordEnd(s: string): (i: nat)
    ensures i <= |s| && (i < |s| ==> IsSpace(s[i]))
    ensures forall j | 0 <= j < i :: !IsSpace(s[j])
    decreases |s|
  {
    if s == [] || IsSpace(s[0]) then 0 else 1 + WordEnd(s[1..])
  }

  /** `word` starts at `k` in `s` after nothing but whitespace, and ends at the end of `s` or
      at whitespace. */
  predicate WordAt(s: string, k: nat, word: string) {
    && k + |word| <= |s| && AllSpace(s[..k]) && s[k..k + |word|] == word
    && (k + |word| == |s| || IsSpace(s[k + |word|]))
  }

  lemma PaddedWordAt(pad: string, word: string, rest: string)
    requires AllSpace(pad) && (rest == [] || IsSpace(rest[0]))
    ensures WordAt(pad + word + rest, |pad|, word)
  {
    var s := pad + word + rest;
    assert s[..|pad|] == pad;
    assert s[|pad|..|pad| + |word|] == word;
    assert rest != [] ==> s[|pad| + |word|] == rest[0];
  }

  lemma SplitAround(s: string, k: nat, w: nat)
    requires k + w <= |s|
    ensures s == s[..k] + s[k..][..w] + s[k..][w..]
  {
    assert s[k..][..w] + s[k..][w..] == s[k..];
  }

  lemma PrefixSpace(s: string, k: nat)
    requires k <= |s| && forall i | 0 <= i < k :: IsSpace(s[i])
    ensures AllSpace(s[..k])
  {
    assert forall i | 0 <= i < k :: s[..k][i] == s[i];
  }

  lemma LeadingWord(s: string)
    requires LStrip(s) != []
    ensures WordAt(s, |s| - |LStrip(s)|, LStrip(s)[..WordEnd(LStrip(s))])
  {
    var t := LStrip(s);
    var k := |s| - |t|;
    var w := WordEnd(t);
    PrefixSpace(s, k);
    SplitAround(s, k, w);
    PaddedWordAt(s[..k], t[..w], t[w..]);
  }

  /** `s.split()[0]`, or None where Python raises IndexError because `s` has no word: the
      maximal run of non-whitespace that follows the leading whitespace of `s`. */
  function FirstWord(s: string): (r: Option<string>)
    ensures r.None? <==> AllSpace(s)
    ensures r.Some? ==> r.value != [] && forall j | 0 <= j < |r.value| :: !IsSpace(r.value[j])
    ensures r.Some? ==> exists k | 0 <= k <= |s| :: WordAt(s, k, r.value)
  {
    var t := LStrip(s);
    if t == [] then None
    else
      LeadingWord(s);
      Some(t[..WordEnd(t)])
  }

  function LowerChar(c: char): char {
    if 'A' <= c <= 'Z' then (c as int + 32) as char else c
  }

  /** `s.lower()` on ASCII letters. */
  function Lower(s: string): (r: string)
    ensures |r| == |s|
  {
    seq(|s|, i requires 0 <= i < |s| => LowerChar(s[i]))
  }

  function DigitChar(d: nat): (c: char)
    requires d < 10
    ensures IsDigit(c)
  {
    ('0' as int + d) as char
  }

  function DigitValue(c: char): (d: nat)
    requires IsDigit(c)
    ensures d < 10
  {
    c as int - '0' as int
  }

  /** `str(n)` for a non-negative integer: its decimal digits, no leading zero. */
  function NatText(n: nat): (r: string)
    ensures r != [] && AllDigits(r)
    decreases n
  {
    if n < 10 then [DigitChar(n)] else NatText(n / 10) + [DigitChar(n % 10)]
  }

  /** The value of a run of decimal digits. */
  function DigitsValue(s: string): nat
    requires AllDigits(s)
    decreases |s|
  {
    if s == [] then 0 else DigitsValue(s[..|s| - 1]) * 10 + DigitValue(s[|s| - 1])
  }

  lemma {:induction false} NatTextValue(n: nat)
    ensures DigitsValue(NatText(n)) == n
    decreases n
  {
    if n >= 10 {
      var s := NatText(n);
      assert s[..|s| - 1] == NatText(n / 10);
      NatTextValue(n / 10);
    }
  }

  /** `int(s)` for an unsigned run of digits. */
  function ParseNat(s: string): Option<nat> {
    if s != [] && AllDigits(s) then Some(DigitsValue(s)) else None
  }

  /** `int(s)` for an already stripped `s`: an optional sign and decimal digits. */
  function ParseInt(s: string): Option<int> {
    var signed := s != [] && (s[0] == '+' || s[0] == '-');
    match ParseNat(if signed then s[1..] else s)
    case None => None
    case Some(v) =>
      var magnitude: int := v;
      Some(if signed && s[0] == '-' then -magnitude else magnitude)
  }

  /** `str(t / 10.0)`: the text Python gives a float with one decimal, here an amount of tenths. */
  function TenthsText(t: nat): string {
    NatText(t / 10) + "." + [DigitChar(t % 10)]
  }

  /** `float(s)` for the forms `D+` and `D+.D`, as an amount of tenths. */
  function ParseTenths(s: string): Option<nat> {
    if |s| >= 3 && s[|s| - 2] == '.' && IsDigit(s[|s| - 1]) then
      match ParseNat(s[..|s| - 2])
      case None => None
      case Some(v) => Some(v * 10 + DigitValue(s[|s| - 1]))
    else
      match ParseNat(s)
      case None => None
      case Some(v) => Some(v * 10)
  }

  /** `int(str(n))` recovers `n`. */
  lemma ParseIntOfNatText(n: nat)
    ensures ParseInt(NatText(n)) == Some(n)
  {
    var s := NatText(n);
    assert IsDigit(s[0]);
    NatTextValue(n);
  }

  /** `float(str(x))` recovers a one-decimal `x`. */
  lemma ParseTenthsOfText(t: nat)
    ensures ParseTenths(TenthsText(t)) == Some(t)
  {
    var s := TenthsText(t);
    var w := NatText(t / 10);
    assert s[..|s| - 2] == w;
    assert s[|s| - 2] == '.';
    NatTextValue(t / 10);
  }

  lemma TenthsTextShape(t: nat)
    ensures var s := TenthsText(t); s != [] && IsDigit(s[0]) && IsDigit(s[|s| - 1])
    ensures forall i | 0 <= i < |TenthsText(t)| :: IsDigit(TenthsText(t)[i]) || TenthsText(t)[i] == '.'
  {
    var w := NatText(t / 10);
    assert TenthsText(t)[0] == w[0];
  }
}

/**
 * String helpers with the meaning JavaScript and Python give them:
 * whitespace, trimming, case mapping of ASCII letters, whitespace splitting,
 * substring search, decimal digit strings and UTF-16 lengths.
 */
module Text {
  import opened Wrappers

  /** Whose idea of whitespace applies. */
  datatype Dialect = JavaScript | Python | PythonFloat

  /** Whitespace as `String.prototype.trim` and `parseFloat` see it (the
      space separators, tab to carriage return, the line and paragraph
      separators and the byte-order mark); as Python's `str.isspace` and
      `str.split` see it (the same without the byte-order mark, plus the four
      information separators U+001C to U+001F and U+0085); or as Python's
      `float` strips it (`str.isspace` without the information separators:
      `float` turns non-ASCII whitespace into a space, keeps the other
      characters below U+0080 as they are, and then strips only the space and
      tab to carriage return). */
  predicate IsSpace(c: char, d: Dialect) {
    || c == ' ' || '\t' <= c <= '\r'
    || c == '\U{00A0}' || c == '\U{1680}' || '\U{2000}' <= c <= '\U{200A}'
    || c == '\U{2028}' || c == '\U{2029}' || c == '\U{202F}' || c == '\U{205F}' || c == '\U{3000}'
    || (d == Python && '\U{001C}' <= c <= '\U{001F}')
    || (d != JavaScript && c == '\U{0085}')
    || (d == JavaScript && c == '\U{FEFF}')
  }

  predicate NoSpace(s: string, d: Dialect) {
    forall i :: 0 <= i < |s| ==> !IsSpace(s[i], d)
  }

  predicate AllSpace(s: string, d: Dialect) {
    forall i :: 0 <= i < |s| ==> IsSpace(s[i], d)
  }

  /** Number of leading whitespace characters. */
  function LeadingSpace(s: string, d: Dialect): (n: nat)
    ensures n <= |s|
    ensures AllSpace(s[..n], d)
    ensures n < |s| ==> !IsSpace(s[n], d)
  {
    if s == [] || !IsSpace(s[0], d) then 0
    else
      var n := 1 + LeadingSpace(s[1..], d);
      assert s[..n] == [s[0]] + s[1..][..n - 1];
      n
  }

  /** Number of trailing whitespace characters. */
  function TrailingSpace(s: string, d: Dialect): (n: nat)
    ensures n <= |s|
    ensures AllSpace(s[|s| - n..], d)
    ensures n < |s| ==> !IsSpace(s[|s| - n - 1], d)
  {
    if s == [] || !IsSpace(s[|s| - 1], d) then 0
    else
      var n := 1 + TrailingSpace(s[..|s| - 1], d);
      assert s[|s| - n..] == s[..|s| - 1][|s| - n..] + [s[|s| - 1]];
      n
  }

  /** Whitespace removed from the front only. */
  function TrimStart(s: string, d: Dialect): (r: string)
    ensures exists i :: 0 <= i <= |s| && r == s[i..] && AllSpace(s[..i], d)
    ensures r != [] ==> !IsSpace(r[0], d)
  {
    s[LeadingSpace(s, d)..]
  }

  /** `String.prototype.trim` / `str.strip()`: the longest slice of `s` that
      neither begins nor ends with whitespace, all of whose surroundings are
      whitespace. */
  function Trim(s: string, d: Dialect): (r: string)
    ensures exists i, j :: 0 <= i <= j <= |s| && r == s[i..j] && AllSpace(s[..i], d) && AllSpace(s[j..], d)
    ensures r != [] ==> !IsSpace(r[0], d) && !IsSpace(r[|r| - 1], d)
  {
    var i := LeadingSpace(s, d);
    var t := s[i..];
    var j := |t| - TrailingSpace(t, d);
    assert s[i..][j..] == s[i + j..];
    assert t[..j] == s[i..i + j];
    t[..j]
  }

  lemma TrimIdempotent(s: string, d: Dialect)
    ensures Trim(Trim(s, d), d) == Trim(s, d)
  {
    var t := Trim(s, d);
    if t != [] {
      assert LeadingSpace(t, d) == 0;
      assert TrailingSpace(t, d) == 0;
      assert t[0..] == t;
      assert t[..|t|] == t;
    }
  }

  function LowerChar(c: char): (d: char)
    ensures 'A' <= c <= 'Z' ==> d as int == c as int + 32
    ensures !('A' <= c <= 'Z') ==> d == c
  {
    if 'A' <= c <= 'Z' then (c as int + 32) as char else c
  }

  function UpperChar(c: char): (d: char)
    ensures 'a' <= c <= 'z' ==> d as int == c as int - 32
    ensures !('a' <= c <= 'z') ==> d == c
  {
    if 'a' <= c <= 'z' then (c as int - 32) as char else c
  }

  predicate IsLower(s: string) {
    forall i :: 0 <= i < |s| ==> !('A' <= s[i] <= 'Z')
  }

  /** `String.prototype.toLowerCase` restricted to ASCII letters: each
      upper-case letter becomes its lower-case letter, every other
      character stays. */
  function ToLower(s: string): (r: string)
    ensures |r| == |s| && IsLower(r)
    ensures forall i :: 0 <= i < |s| && 'A' <= s[i] <= 'Z' ==> r[i] as int == s[i] as int + 32
    ensures forall i :: 0 <= i < |s| && !('A' <= s[i] <= 'Z') ==> r[i] == s[i]
  {
    seq(|s|, i requires 0 <= i < |s| => LowerChar(s[i]))
  }

  lemma ToLowerOfLower(s: string)
    requires IsLower(s)
    ensures ToLower(s) == s
  {
  }

  /** `sub` occurs in `s` starting at position `i`. */
  predicate OccursAt(s: string, sub: string, i: int) {
    0 <= i && i + |sub| <= |s| && s[i..i + |sub|] == sub
  }

  /** `'hour' in s` in Python: `sub` occurs somewhere in `s`. */
  predicate Contains(s: string, sub: string) {
    exists i :: 0 <= i <= |s| - |sub| && OccursAt(s, sub, i)
  }

  /** Number of leading characters that are not Python whitespace. */
  function TokenLength(s: string): (n: nat)
    ensures n <= |s|
    ensures NoSpace(s[..n], Python)
    ensures n < |s| ==> IsSpace(s[n], Python)
  {
    if s == [] || IsSpace(s[0], Python) then 0
    else
      var n := 1 + TokenLength(s[1..]);
      assert s[..n] == [s[0]] + s[1..][..n - 1];
      n
  }

  /** Python's `str.split()` with no separator: the maximal runs of
      non-whitespace characters, in order. */
  function Split(s: string): (r: seq<string>)
    ensures forall k :: 0 <= k < |r| ==> r[k] != [] && NoSpace(r[k], Python)
    decreases |s|
  {
    var t := TrimStart(s, Python);
    if t == [] then []
    else
      var n := TokenLength(t);
      [t[..n]] + Split(t[n..])
  }

  lemma {:induction false} SplitEmptyIffBlank(s: string)
    ensures Split(s) == [] <==> AllSpace(s, Python)
  {
    var i := LeadingSpace(s, Python);
    if i < |s| {
      assert !IsSpace(s[i], Python);
    } else {
      assert s[..i] == s;
    }
  }

  /** A token followed by nothing or by whitespace is the token's full
      length. */
  lemma {:induction false} TokenLengthOfToken(t: string, rest: string)
    requires NoSpace(t, Python) && (rest == [] || IsSpace(rest[0], Python))
    ensures TokenLength(t + rest) == |t|
  {
    if t != [] {
      assert (t + rest)[1..] == t[1..] + rest;
      TokenLengthOfToken(t[1..], rest);
    }
  }

  /** Splitting a token followed by nothing or by whitespace yields that
      token first. */
  lemma SplitToken(t: string, rest: string)
    requires t != [] && NoSpace(t, Python) && (rest == [] || IsSpace(rest[0], Python))
    ensures Split(t + rest) == [t] + Split(rest)
  {
    assert LeadingSpace(t + rest, Python) == 0;
    assert TrimStart(t + rest, Python) == t + rest;
    TokenLengthOfToken(t, rest);
    assert (t + rest)[..|t|] == t && (t + rest)[|t|..] == rest;
  }

  /** Leading whitespace adds to the whitespace in front of the rest. */
  lemma {:induction false} LeadingSpaceAppend(w: string, rest: string, d: Dialect)
    requires AllSpace(w, d)
    ensures LeadingSpace(w + rest, d) == |w| + LeadingSpace(rest, d)
  {
    if w != [] {
      assert (w + rest)[1..] == w[1..] + rest;
      LeadingSpaceAppend(w[1..], rest, d);
    } else {
      assert w + rest == rest;
    }
  }

  /** Whitespace in front does not change the split; with `SplitToken`
      this pins the tokens of every string. */
  lemma SplitAfterBlanks(w: string, rest: string)
    requires AllSpace(w, Python)
    ensures Split(w + rest) == Split(rest)
  {
    LeadingSpaceAppend(w, rest, Python);
    assert (w + rest)[|w| + LeadingSpace(rest, Python)..] == rest[LeadingSpace(rest, Python)..];
    assert TrimStart(w + rest, Python) == TrimStart(rest, Python);
  }

  /** A token, a blank, and the rest split as the token followed by the
      split of the rest. */
  lemma SplitWordThenBlank(w: string, rest: string)
    requires w != [] && NoSpace(w, Python)
    ensures Split(w + " " + rest) == [w] + Split(rest)
  {
    assert w + " " + rest == w + (" " + rest);
    SplitToken(w, " " + rest);
    SplitAfterBlanks(" ", rest);
  }

  /** Words joined by single blanks split back into those words. */
  lemma {:induction false} SplitWords(words: seq<string>)
    requires forall k :: 0 <= k < |words| ==> words[k] != [] && NoSpace(words[k], Python)
    ensures Split(Join(words, " ")) == words
    decreases |words|
  {
    if |words| == 1 {
      SplitOneWord(words[0]);
    } else if |words| > 1 {
      SplitWords(words[1..]);
      SplitWordsCons(words);
    }
  }

  lemma SplitOneWord(w: string)
    requires w != [] && NoSpace(w, Python)
    ensures Split(Join([w], " ")) == [w]
  {
    SplitToken(w, "");
    assert w + "" == w;
  }

  lemma SplitWordsCons(words: seq<string>)
    requires |words| > 1 && words[0] != [] && NoSpace(words[0], Python)
    requires Split(Join(words[1..], " ")) == words[1..]
    ensures Split(Join(words, " ")) == words
  {
    var rest := Join(words[1..], " ");
    assert Join(words, " ") == words[0] + " " + rest;
    SplitWordThenBlank(words[0], rest);
    assert [words[0]] + words[1..] == words;
  }

  /** A non-empty string without whitespace is its own trim. */
  lemma TrimToken(t: string, d: Dialect)
    requires t != [] && NoSpace(t, d)
    ensures Trim(t, d) == t
  {
    assert LeadingSpace(t, d) == 0 && TrailingSpace(t, d) == 0;
  }

  /** A string with no `h` does not contain `hour`. */
  lemma NoHour(s: string)
    requires 'h' !in s
    ensures !Contains(s, "hour")
  {
    forall i | 0 <= i <= |s| - 4 ensures !OccursAt(s, "hour", i) {
      assert s[i] in s;
    }
  }

  /** Python's `list.index`: the first position holding `x`, if any. */
  function IndexOf(xs: seq<string>, x: string): (r: Option<nat>)
    ensures r.Some? ==> r.value < |xs| && xs[r.value] == x && x !in xs[..r.value]
    ensures r.None? <==> x !in xs
  {
    if xs == [] then None
    else if xs[0] == x then Some(0)
    else
      match IndexOf(xs[1..], x)
      case None => None
      case Some(k) =>
        assert xs[..k + 1] == [xs[0]] + xs[1..][..k];
        Some(k + 1)
  }

  predicate IsDigit(c: char) {
    '0' <= c <= '9'
  }

  /** Every character is a decimal digit; the empty string qualifies. */
  predicate DigitString(s: string) {
    forall i :: 0 <= i < |s| ==> IsDigit(s[i])
  }

  /** Python's `str.isdigit` on ASCII: non-empty and every character a digit. */
  predicate IsDigits(s: string) {
    |s| > 0 && DigitString(s)
  }

  function DigitValue(c: char): (d: nat)
    requires IsDigit(c)
    ensures d < 10
  {
    c as int - '0' as int
  }

  function DigitChar(d: nat): (c: char)
    requires d < 10
    ensures IsDigit(c) && DigitValue(c) == d
  {
    ('0' as int + d) as char
  }

  /** Ten to the power `k`. */
  function Power10(k: nat): (p: nat)
    ensures p >= 1
  {
    if k == 0 then 1 else 10 * Power10(k - 1)
  }

  /** The number a string of decimal digits denotes (Python `int`, the
      integer part of JavaScript `parseFloat`); the empty string denotes 0,
      and `k` digits denote less than ten to the `k`. */
  function DigitsValue(s: string): (n: nat)
    requires DigitString(s)
    ensures n < Power10(|s|)
  {
    if s == [] then 0
    else
      var p := s[..|s| - 1];
      assert forall i :: 0 <= i < |p| ==> p[i] == s[i];
      10 * DigitsValue(p) + DigitValue(s[|s| - 1])
  }

  /** A digit string denotes 0 exactly when all its digits are `0`. */
  lemma {:induction false} DigitsValueZero(s: string)
    requires DigitString(s)
    ensures DigitsValue(s) == 0 <==> forall i :: 0 <= i < |s| ==> s[i] == '0'
    decreases |s|
  {
    if s != [] {
      var p := s[..|s| - 1];
      assert forall i :: 0 <= i < |p| ==> p[i] == s[i];
      DigitsValueZero(p);
    }
  }

  /** The decimal numeral of `n`, without leading zeros. */
  function NatToString(n: nat): (s: string)
    ensures IsDigits(s)
    ensures |s| > 1 ==> s[0] != '0'
  {
    if n < 10 then [DigitChar(n)]
    else NatToString(n / 10) + [DigitChar(n % 10)]
  }

  lemma {:induction false} DigitsValueOfNatToString(n: nat)
    ensures DigitsValue(NatToString(n)) == n
  {
    var s := NatToString(n);
    if n >= 10 {
      DigitsValueOfNatToString(n / 10);
      assert s[..|s| - 1] == NatToString(n / 10);
    }
  }

  /** The other round trip: printing the value of a digit string without
      leading zeros gives the string back. */
  lemma {:induction false} NatToStringOfDigits(s: string)
    requires IsDigits(s) && (|s| > 1 ==> s[0] != '0')
    ensures NatToString(DigitsValue(s)) == s
    decreases |s|
  {
    var c := s[|s| - 1];
    assert DigitChar(DigitValue(c)) == c;
    if |s| > 1 {
      var p := s[..|s| - 1];
      assert p[0] == s[0];
      NatToStringOfDigits(p);
      DigitsValueZero(p);
      var v, q := DigitsValue(s), DigitsValue(p);
      assert v == 10 * q + DigitValue(c) && q > 0;
      assert v / 10 == q && v % 10 == DigitValue(c);
      assert s == p + [c];
    } else {
      assert s == [c];
    }
  }

  /** `Array.prototype.join(sep)`. */
  function Join(xs: seq<string>, sep: string): (r: string)
    ensures xs == [] ==> r == []
    ensures |xs| == 1 ==> r == xs[0]
  {
    if xs == [] then []
    else if |xs| == 1 then xs[0]
    else xs[0] + sep + Join(xs[1..], sep)
  }

  /** The length JavaScript reports for a string: one UTF-16 code unit per
      character of the Basic Multilingual Plane, two (a surrogate pair) for
      every character beyond it. */
  function Utf16Length(s: string): (n: nat)
    ensures |s| <= n <= 2 * |s|
  {
    if s == [] then 0
    else (if s[0] as int >= 0x1_0000 then 2 else 1) + Utf16Length(s[1..])
  }

  /** A string of characters beyond the Basic Multilingual Plane, such as
      emoji, is twice as long in UTF-16 as in characters. */
  lemma {:induction false} Utf16LengthOfAstral(s: string)
    requires forall i :: 0 <= i < |s| ==> s[i] as int >= 0x1_0000
    ensures Utf16Length(s) == 2 * |s|
  {
    if s != [] {
      Utf16LengthOfAstral(s[1..]);
    }
  }

  /** Within the Basic Multilingual Plane the two lengths agree. */
  lemma {:induction false} Utf16LengthOfBmp(s: string)
    requires forall i :: 0 <= i < |s| ==> s[i] as int < 0x1_0000
    ensures Utf16Length(s) == |s|
  {
    if s != [] {
      Utf16LengthOfBmp(s[1..]);
    }
  }
}

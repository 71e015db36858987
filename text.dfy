/** The Python string operations the core relies on: character classes,
    `str.split()`, `str.split(sep)`, `str.strip()`, `int(str)`, `str(int)`,
    `str.isupper()` and the regular expression `^[0-9]+$`. */
module Text {
  import opened Py

  // ---------------------------------------------------------------------
  // Character classes

  predicate IsDigit(c: char) { '0' <= c <= '9' }
  predicate IsLowerAscii(c: char) { 'a' <= c <= 'z' }
  predicate IsUpperAscii(c: char) { 'A' <= c <= 'Z' }
  /** `str.isalpha` on one character, restricted to ASCII letters. */
  predicate IsAlpha(c: char) { IsLowerAscii(c) || IsUpperAscii(c) }
  /** `str.isalnum` on one character, restricted to ASCII. */
  predicate IsAlnum(c: char) { IsAlpha(c) || IsDigit(c) }

  /** The characters Python's `str.split()` and `str.strip()` treat as
      whitespace. */
  predicate IsSpace(c: char) {
    || c == ' ' || ('\t' <= c <= '\r') || ('\U{1C}' <= c <= '\U{1F}')
    || c == '\U{85}' || c == '\U{A0}' || c == '\U{1680}'
    || ('\U{2000}' <= c <= '\U{200A}') || c == '\U{2028}' || c == '\U{2029}'
    || c == '\U{202F}' || c == '\U{205F}' || c == '\U{3000}'
  }

  predicate NoSpace(w: string) { forall i :: 0 <= i < |w| ==> !IsSpace(w[i]) }
  predicate AllSpace(s: string) { forall i :: 0 <= i < |s| ==> IsSpace(s[i]) }
  predicate AllDigitChars(s: string) { forall i :: 0 <= i < |s| ==> IsDigit(s[i]) }

  /** `re.fullmatch(r'^[0-9]+$', s)` is a match. */
  predicate AllDigits(s: string) { |s| > 0 && AllDigitChars(s) }

  /** `str.isupper()`: some cased character and no lower-case one (ASCII). */
  predicate IsUpperStr(s: string) {
    (exists i :: 0 <= i < |s| && IsUpperAscii(s[i])) &&
    (forall i :: 0 <= i < |s| ==> !IsLowerAscii(s[i]))
  }

  // ---------------------------------------------------------------------
  // str.split() — split on runs of whitespace, dropping empty words

  /** Length of the run of non-whitespace characters at the front of `s`. */
  function WordLength(s: string): (n: nat)
    ensures n <= |s|
    ensures NoSpace(s[..n])
    ensures n < |s| ==> IsSpace(s[n])
  {
    if s == [] || IsSpace(s[0]) then 0 else 1 + WordLength(s[1..])
  }

  /** Python's `s.split()`. */
  function Words(s: string): (ws: seq<string>)
    ensures forall k :: 0 <= k < |ws| ==> ws[k] != [] && NoSpace(ws[k])
    decreases |s|
  {
    if s == [] then []
    else if IsSpace(s[0]) then Words(s[1..])
    else
      var n := WordLength(s);
      [s[..n]] + Words(s[n..])
  }

  /** `s.split()` is empty exactly when `s` holds nothing but whitespace. */
  lemma {:induction false} WordsEmptyIffAllSpace(s: string)
    ensures Words(s) == [] <==> AllSpace(s)
    decreases |s|
  {
    if s != [] {
      if IsSpace(s[0]) {
        WordsEmptyIffAllSpace(s[1..]);
        if AllSpace(s[1..]) {
          forall i | 0 <= i < |s| ensures IsSpace(s[i]) {
            if i > 0 { assert s[i] == s[1..][i - 1]; }
          }
        }
      } else {
        assert !IsSpace(s[0]);
      }
    }
  }

  /** A word without whitespace splits to itself. */
  lemma {:induction false} WordsOfWord(w: string)
    requires w != [] && NoSpace(w)
    ensures Words(w) == [w]
  {
    WordLengthOfWord(w);
    assert w[..|w|] == w;
    assert w[|w|..] == [];
  }

  lemma {:induction false} WordLengthOfWord(w: string)
    requires NoSpace(w)
    ensures WordLength(w) == |w|
  {
    if w != [] {
      assert NoSpace(w[1..]) by {
        forall i | 0 <= i < |w[1..]| ensures !IsSpace(w[1..][i]) { assert w[1..][i] == w[i + 1]; }
      }
      WordLengthOfWord(w[1..]);
    }
  }

  /** Text appended after the first word's end does not change the word. */
  lemma {:induction false} WordLengthOfPrefix(s: string, t: string)
    requires WordLength(s) < |s| || t == [] || IsSpace(t[0])
    ensures WordLength(s + t) == WordLength(s)
  {
    if s != [] && !IsSpace(s[0]) {
      assert (s + t)[1..] == s[1..] + t;
      WordLengthOfPrefix(s[1..], t);
    }
  }

  /** A word followed by whitespace (or nothing) is the first word. */
  lemma WordsOfLeadingWord(w: string, t: string)
    requires w != [] && NoSpace(w) && (t == [] || IsSpace(t[0]))
    ensures Words(w + t) == [w] + Words(t)
  {
    WordLengthOfWord(w);
    WordLengthOfPrefix(w, t);
    assert (w + t)[..|w|] == w;
    assert (w + t)[|w|..] == t;
  }

  /** A word after a whitespace character is the last word. */
  lemma {:induction false} WordsOfTrailingWord(s: string, c: char, w: string)
    requires IsSpace(c) && w != [] && NoSpace(w)
    ensures Words(s + [c] + w) == Words(s) + [w]
    decreases |s|
  {
    var u := s + [c] + w;
    if s == [] {
      assert u[1..] == w;
      WordsOfWord(w);
    } else if IsSpace(s[0]) {
      assert u[1..] == s[1..] + [c] + w;
      WordsOfTrailingWord(s[1..], c, w);
    } else {
      var n := WordLength(s);
      WordLengthOfPrefix(s, [c] + w);
      assert u == s + ([c] + w);
      assert u[..n] == s[..n];
      assert u[n..] == s[n..] + [c] + w;
      WordsOfTrailingWord(s[n..], c, w);
    }
  }

  // ---------------------------------------------------------------------
  // str.split(sep) for a one-character separator, and its inverse

  /** Index of the first `sep` in `s`. */
  function FirstIndex(s: string, sep: char): (i: nat)
    requires sep in s
    ensures i < |s| && s[i] == sep && sep !in s[..i]
  {
    if s[0] == sep then 0 else 1 + FirstIndex(s[1..], sep)
  }

  /** Python's `s.split(sep)`: never empty; `"".split(sep) == [""]`. */
  function SplitOn(s: string, sep: char): (parts: seq<string>)
    ensures |parts| >= 1
    ensures forall k :: 0 <= k < |parts| ==> sep !in parts[k]
    decreases |s|
  {
    if sep !in s then [s]
    else
      var i := FirstIndex(s, sep);
      [s[..i]] + SplitOn(s[i + 1..], sep)
  }

  /** Python's `sep.join(parts)`. */
  function Join(parts: seq<string>, sep: char): string
  {
    if |parts| == 0 then ""
    else if |parts| == 1 then parts[0]
    else parts[0] + [sep] + Join(parts[1..], sep)
  }

  /** Splitting and joining on the same separator gives the text back. */
  lemma {:induction false} JoinSplitOn(s: string, sep: char)
    ensures Join(SplitOn(s, sep), sep) == s
    decreases |s|
  {
    if sep in s {
      var i := FirstIndex(s, sep);
      var rest := s[i + 1..];
      JoinSplitOn(rest, sep);
      var parts := SplitOn(s, sep);
      assert parts == [s[..i]] + SplitOn(rest, sep);
      assert parts[1..] == SplitOn(rest, sep);
      assert Join(parts, sep) == s[..i] + [sep] + rest;
      assert s == s[..i] + [sep] + rest;
    }
  }

  // ---------------------------------------------------------------------
  // str.strip()

  function TrimLeft(s: string): (r: string)
    ensures |r| <= |s|
    ensures r != [] ==> !IsSpace(r[0])
  {
    if s != [] && IsSpace(s[0]) then TrimLeft(s[1..]) else s
  }

  function TrimRight(s: string): (r: string)
    ensures |r| <= |s|
    ensures r != [] ==> r[0] == s[0]
    ensures r != [] ==> !IsSpace(r[|r| - 1])
  {
    if s != [] && IsSpace(s[|s| - 1]) then TrimRight(s[..|s| - 1]) else s
  }

  /** Python's `s.strip()`. */
  function Strip(s: string): (r: string)
    ensures |r| <= |s|
    ensures r != [] ==> !IsSpace(r[0]) && !IsSpace(r[|r| - 1])
  {
    var l := TrimLeft(s);
    var r := TrimRight(l);
    assert r != [] ==> r[0] == l[0];
    r
  }

  lemma StripUnpadded(s: string)
    requires s != [] && !IsSpace(s[0]) && !IsSpace(s[|s| - 1])
    ensures Strip(s) == s
  {
  }

  // ---------------------------------------------------------------------
  // int(str) and str(int)

  function DigitValue(c: char): int requires IsDigit(c) { c as int - '0' as int }

  /** A decimal literal as `int()` reads it: digits, with single
      underscores allowed between two digits. */
  predicate IsDecimalBody(s: string) {
    |s| > 0 && IsDigit(s[0]) && IsDigit(s[|s| - 1]) && DecimalChars(s) && NoDoubleUnderscore(s)
  }

  /** No two underscores in a row. */
  predicate NoDoubleUnderscore(s: string) {
    |s| < 2 || (!(s[0] == '_' && s[1] == '_') && NoDoubleUnderscore(s[1..]))
  }

  lemma {:induction false} DigitsHaveNoUnderscore(s: string)
    requires AllDigitChars(s)
    ensures NoDoubleUnderscore(s)
  {
    if |s| >= 2 {
      assert AllDigitChars(s[1..]) by {
        forall i | 0 <= i < |s[1..]| ensures IsDigit(s[1..][i]) { assert s[1..][i] == s[i + 1]; }
      }
      DigitsHaveNoUnderscore(s[1..]);
    }
  }

  predicate DecimalChars(s: string) { forall i :: 0 <= i < |s| ==> IsDigit(s[i]) || s[i] == '_' }

  /** The value of a digit string, ignoring underscores. */
  function DecimalValue(s: string): nat
    requires DecimalChars(s)
  {
    if s == [] then 0
    else if s[|s| - 1] == '_' then DecimalValue(s[..|s| - 1])
    else DecimalValue(s[..|s| - 1]) * 10 + DigitValue(s[|s| - 1])
  }

  /** Python's `int(s)` for a string `s`, base 10: surrounding whitespace,
      an optional sign, then a decimal literal; None stands for ValueError. */
  function PyInt(s: string): Option<int>
  {
    var t := Strip(s);
    if t != [] && (t[0] == '+' || t[0] == '-') then
      var body := t[1..];
      if IsDecimalBody(body) then
        Some(if t[0] == '-' then -(DecimalValue(body) as int) else DecimalValue(body) as int)
      else None
    else if IsDecimalBody(t) then Some(DecimalValue(t) as int)
    else None
  }

  function DigitChar(d: nat): (c: char)
    requires d < 10
    ensures IsDigit(c) && DigitValue(c) == d
  {
    ('0' as int + d) as char
  }

  /** Python's `str(n)` for a natural number. */
  function NatToString(n: nat): (s: string)
    ensures |s| > 0
  {
    if n < 10 then [DigitChar(n)] else NatToString(n / 10) + [DigitChar(n % 10)]
  }

  /** Python's `str(i)` for an integer. */
  function IntToString(i: int): string
  {
    if i < 0 then "-" + NatToString(-i) else NatToString(i)
  }

  /** `str(n)` is made of decimal digits, and reads back as `n`. */
  lemma {:induction false} DecimalValueOfNatToString(n: nat)
    ensures AllDigitChars(NatToString(n)) && DecimalValue(NatToString(n)) == n
  {
    var s := NatToString(n);
    if n >= 10 {
      DecimalValueOfNatToString(n / 10);
      assert s[..|s| - 1] == NatToString(n / 10);
    }
  }

  lemma DigitsAreDecimalBody(s: string)
    requires |s| > 0 && AllDigitChars(s)
    ensures IsDecimalBody(s) && !IsSpace(s[0]) && !IsSpace(s[|s| - 1])
  {
    DigitsHaveNoUnderscore(s);
  }

  lemma PyIntOfDigits(d: string)
    requires |d| > 0 && AllDigitChars(d)
    ensures PyInt(d) == Some(DecimalValue(d) as int)
  {
    DigitsAreDecimalBody(d);
    StripUnpadded(d);
    assert d[0] != '+' && d[0] != '-';
  }

  lemma PyIntOfNegatedDigits(d: string)
    requires |d| > 0 && AllDigitChars(d)
    ensures PyInt("-" + d) == Some(-(DecimalValue(d) as int))
  {
    var s := "-" + d;
    DigitsAreDecimalBody(d);
    assert s[0] == '-' && s[1..] == d;
    assert s[|s| - 1] == d[|d| - 1];
    StripUnpadded(s);
    SignedPyInt(s, d);
  }

  /** `int` of an unpadded text whose sign is followed by a decimal body. */
  lemma SignedPyInt(s: string, d: string)
    requires Strip(s) == s && |s| > 0 && s[0] == '-' && s[1..] == d && IsDecimalBody(d)
    ensures PyInt(s) == Some(-(DecimalValue(d) as int))
  {
  }

  /** `int(str(n)) == n` for a natural number. */
  lemma PyIntOfNatToString(n: nat)
    ensures PyInt(NatToString(n)) == Some(n)
  {
    DecimalValueOfNatToString(n);
    PyIntOfDigits(NatToString(n));
  }

  /** `int(str(i)) == i`: the two conversions are inverse. */
  lemma PyIntOfIntToString(i: int)
    ensures PyInt(IntToString(i)) == Some(i)
  {
    if i < 0 {
      PyIntOfNegativeToString(-i);
      assert IntToString(i) == "-" + NatToString(-i);
    } else {
      PyIntOfNatToString(i);
    }
  }

  lemma PyIntOfNegativeToString(n: nat)
    ensures PyInt("-" + NatToString(n)) == Some(-(n as int))
  {
    DecimalValueOfNatToString(n);
    PyIntOfNegatedDigits(NatToString(n));
  }
}

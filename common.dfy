/** Failure-carrying result types used throughout the model. */
module Wrappers {

  datatype Option<+T> = None | Some(value: T) {
    function GetOr(default: T): T {
      match this
      case Some(v) => v
      case None => default
    }
  }

  /** A value, or the exception the Python code raises instead. */
  datatype Result<+T, +E> = Ok(value: T) | Err(error: E)

  /** Success without a value, or the exception raised instead. */
  datatype Outcome<+E> = Pass | Fail(error: E)
}

/** Python string operations the core relies on: whitespace, `strip`, `split`,
    `" ".join`, `in` on strings, `str.replace` of one character, slicing and
    path joining. */
module Text {
  import opened Wrappers

  /** Python's `str.isspace` for one character: the characters `str.split()`
      and `str.strip()` (without arguments) treat as whitespace. */
  predicate IsSpace(c: char) {
    || ('\U{9}' <= c <= '\U{d}')
    || ('\U{1c}' <= c <= '\U{20}')
    || c == '\U{85}' || c == '\U{a0}' || c == '\U{1680}'
    || ('\U{2000}' <= c <= '\U{200a}')
    || c == '\U{2028}' || c == '\U{2029}' || c == '\U{202f}' || c == '\U{205f}'
    || c == '\U{3000}'
  }

  predicate AllSpace(s: string) {
    forall i :: 0 <= i < |s| ==> IsSpace(s[i])
  }

  /** A word as `str.split()` produces it: non-empty, without whitespace. */
  predicate IsWord(w: string) {
    w != [] && forall i :: 0 <= i < |w| ==> !IsSpace(w[i])
  }

  /** The number of whitespace characters `s` starts with. */
  function LeadingSpace(s: string): (n: nat)
    ensures n <= |s|
    ensures forall i :: 0 <= i < n ==> IsSpace(s[i])
    ensures n == |s| || !IsSpace(s[n])
  {
    if s == [] || !IsSpace(s[0]) then 0 else 1 + LeadingSpace(s[1..])
  }

  /** The number of whitespace characters `s` ends with. */
  function TrailingSpace(s: string): (n: nat)
    ensures n <= |s|
    ensures forall i :: |s| - n <= i < |s| ==> IsSpace(s[i])
    ensures n == |s| || !IsSpace(s[|s| - 1 - n])
  {
    if s == [] || !IsSpace(s[|s| - 1]) then 0 else 1 + TrailingSpace(s[..|s| - 1])
  }

  /** Python's `str.strip()`: `s` without its leading and trailing
      whitespace. What is removed is all whitespace, what is kept neither
      starts nor ends with whitespace, and only an all-whitespace string
      strips to the empty string. */
  function Strip(s: string): (r: string)
    ensures r == [] <==> AllSpace(s)
    ensures r != [] ==> !IsSpace(r[0]) && !IsSpace(r[|r| - 1])
    ensures LeadingSpace(s) + |r| <= |s| && r == s[LeadingSpace(s)..LeadingSpace(s) + |r|]
    ensures forall k :: 0 <= k < |s| && !(LeadingSpace(s) <= k < LeadingSpace(s) + |r|) ==> IsSpace(s[k])
  {
    var a := LeadingSpace(s);
    if a == |s| then []
    else
      var b := TrailingSpace(s);
      assert b < |s| - a;
      s[a..|s| - b]
  }

  /** Length of the leading run of non-whitespace characters. */
  function WordLength(s: string): (n: nat)
    ensures n <= |s|
    ensures forall i :: 0 <= i < n ==> !IsSpace(s[i])
    ensures n == |s| || IsSpace(s[n])
  {
    if s == [] || IsSpace(s[0]) then 0 else 1 + WordLength(s[1..])
  }

  /** Python's `str.split()` without arguments: the maximal runs of
      non-whitespace characters, in order. */
  function Split(s: string): (ws: seq<string>)
    ensures forall k :: 0 <= k < |ws| ==> IsWord(ws[k])
    decreases |s|
  {
    if s == [] then []
    else if IsSpace(s[0]) then Split(s[1..])
    else
      var n := WordLength(s);
      [s[..n]] + Split(s[n..])
  }

  /** Python's `sep.join(ws)`. */
  function Join(ws: seq<string>, sep: string): string {
    if ws == [] then ""
    else if |ws| == 1 then ws[0]
    else ws[0] + sep + Join(ws[1..], sep)
  }

  /** Python's `s[:n]` for an integer `n`: a negative `n` counts from the end. */
  function SliceTo<T>(s: seq<T>, n: int): (r: seq<T>)
    ensures n >= 0 ==> r == s[..if n < |s| then n else |s|]
    ensures n < 0 ==> r == s[..if |s| + n < 0 then 0 else |s| + n]
    ensures |r| <= |s| && r == s[..|r|]
  {
    if n >= 0 then s[..if n < |s| then n else |s|]
    else s[..if |s| + n < 0 then 0 else |s| + n]
  }

  predicate IsDigit(c: char) {
    '0' <= c <= '9'
  }

  function DigitChar(d: int): (c: char)
    requires 0 <= d <= 9
    ensures IsDigit(c)
  {
    ('0' as int + d) as char
  }

  function DigitValue(c: char): int
    requires IsDigit(c)
  {
    c as int - '0' as int
  }

  predicate AllDigits(s: string) {
    forall i :: 0 <= i < |s| ==> IsDigit(s[i])
  }

  /** The value of a string of decimal digits. */
  function DecimalValue(s: string): nat
    requires AllDigits(s)
  {
    if s == [] then 0 else 10 * DecimalValue(s[..|s| - 1]) + DigitValue(s[|s| - 1])
  }

  /** `str(n)` for a natural number. */
  function DecimalString(n: nat): (s: string)
    ensures s != [] && AllDigits(s)
  {
    if n < 10 then [DigitChar(n)] else DecimalString(n / 10) + [DigitChar(n % 10)]
  }

  lemma {:induction false} DecimalStringValue(n: nat)
    ensures DecimalValue(DecimalString(n)) == n
  {
    var s := DecimalString(n);
    if n >= 10 {
      assert s[..|s| - 1] == DecimalString(n / 10);
      DecimalStringValue(n / 10);
    }
  }

  /** `str(n)` for an integer. */
  function IntString(n: int): string {
    if n < 0 then "-" + DecimalString(-n) else DecimalString(n)
  }

  /** The digits of `s`, in order; for a digit string with `_` separators
      this is the string without them. */
  function Digits(s: string): (r: string)
    ensures AllDigits(r)
  {
    if s == [] then ""
    else if IsDigit(s[0]) then [s[0]] + Digits(s[1..])
    else Digits(s[1..])
  }

  /** The digits of a Python integer literal: digits, at least one, with
      single underscores allowed between two digits. */
  predicate DigitGroups(s: string) {
    && s != [] && IsDigit(s[0]) && IsDigit(s[|s| - 1])
    && (forall i :: 0 <= i < |s| ==> IsDigit(s[i]) || s[i] == '_')
    && !Contains(s, "__")
  }

  /** Python's `int(s)` in base 10: surrounding whitespace is ignored, one
      sign is allowed, and the rest must be digit groups; anything else
      raises `ValueError` (here `None`). */
  function ParseInt(s: string): Option<int> {
    ParseStripped(Strip(s))
  }

  /** `int` on a string already stripped of whitespace. */
  function ParseStripped(t: string): Option<int> {
    var signed := t != [] && (t[0] == '-' || t[0] == '+');
    var body := if signed then t[1..] else t;
    if !DigitGroups(body) then None
    else
      var v: int := DecimalValue(Digits(body));
      Some(if signed && t[0] == '-' then -v else v)
  }

  /** Stripping twice is stripping once. */
  lemma StripIdempotent(s: string)
    ensures Strip(Strip(s)) == Strip(s)
  {
    var r := Strip(s);
    if r != [] {
      assert LeadingSpace(r) == 0;
      assert TrailingSpace(r) == 0;
    }
  }

  /** Whitespace around a text whose ends are not whitespace is what
      `strip` removes. */
  lemma StripPadded(front: string, w: string, back: string)
    requires AllSpace(front) && AllSpace(back)
    requires w != [] && !IsSpace(w[0]) && !IsSpace(w[|w| - 1])
    ensures Strip(front + w + back) == w
  {
    var s := front + w + back;
    assert s[|front|] == w[0];
    assert s[|front| + |w| - 1] == w[|w| - 1];
    var a := LeadingSpace(s);
    assert a == |front|;
    var b := TrailingSpace(s);
    assert b == |back|;
    assert s[|front|..|s| - |back|] == w;
  }

  lemma StripNoSpace(s: string)
    requires forall i :: 0 <= i < |s| ==> !IsSpace(s[i])
    ensures Strip(s) == s
  {
    if s != [] {
      assert LeadingSpace(s) == 0;
      assert TrailingSpace(s) == 0;
    }
  }

  lemma {:induction false} DigitsOfDigits(s: string)
    requires AllDigits(s)
    ensures Digits(s) == s
  {
    if s != [] {
      DigitsOfDigits(s[1..]);
    }
  }

  lemma DigitGroupsOfDigits(d: string)
    requires d != [] && AllDigits(d)
    ensures DigitGroups(d)
  {
    DigitsNoDoubleUnderscore(d);
  }

  /** A string of digits has no `__` in it. */
  lemma {:induction false} DigitsNoDoubleUnderscore(d: string)
    requires AllDigits(d)
    ensures !Contains(d, "__")
    decreases |d|
  {
    if d != [] {
      assert d[1..] == [] || AllDigits(d[1..]);
      DigitsNoDoubleUnderscore(d[1..]);
      assert |d| < 2 || d[..2] != "__" by {
        if |d| >= 2 { assert d[..2][0] == d[0]; }
      }
    }
  }

  /** A digit string parses to its value. */
  lemma ParseIntDigits(d: string)
    requires d != [] && AllDigits(d)
    ensures ParseInt(d) == Some(DecimalValue(d) as int)
  {
    DigitsOfDigits(d);
    StripNoSpace(d);
    DigitGroupsOfDigits(d);
    assert !(d[0] == '-' || d[0] == '+');
  }

  lemma ParseStrippedMinus(m: string)
    requires m != [] && m[0] == '-' && DigitGroups(m[1..])
    ensures ParseStripped(m) == Some(-(DecimalValue(Digits(m[1..])) as int))
  {
  }

  lemma MinusDigitsStrip(d: string)
    requires AllDigits(d)
    ensures Strip("-" + d) == "-" + d
  {
    var m := "-" + d;
    forall i | 0 <= i < |m| ensures !IsSpace(m[i]) {
      if i > 0 { assert m[i] == d[i - 1]; }
    }
    StripNoSpace(m);
  }

  /** `int(str(n)) == n`. */
  lemma ParseIntString(n: int)
    ensures ParseInt(IntString(n)) == Some(n)
  {
    var m: nat := if n < 0 then -n else n;
    var d := DecimalString(m);
    DecimalStringValue(m);
    DigitsOfDigits(d);
    if n < 0 {
      var s := IntString(n);
      assert s[1..] == d;
      DigitGroupsOfDigits(d);
      MinusDigitsStrip(d);
      ParseStrippedMinus(s);
    } else {
      ParseIntDigits(d);
    }
  }

  /** Python's `sub in s` for strings. */
  predicate Contains(s: string, sub: string)
    decreases |s|
  {
    (|sub| <= |s| && s[..|sub|] == sub) || (s != [] && Contains(s[1..], sub))
  }

  /** Python's `s.replace(c, "")` for one character `c`. */
  function RemoveChar(s: string, c: char): (r: string)
    ensures forall i :: 0 <= i < |r| ==> r[i] != c
    ensures |r| <= |s|
  {
    if s == [] then ""
    else if s[0] == c then RemoveChar(s[1..], c)
    else [s[0]] + RemoveChar(s[1..], c)
  }

  lemma RemoveCharAppend(a: string, b: string, c: char)
    ensures RemoveChar(a + b, c) == RemoveChar(a, c) + RemoveChar(b, c)
  {
    if a == [] {
      assert a + b == b;
    } else {
      assert (a + b)[1..] == a[1..] + b;
      RemoveCharAppend(a[1..], b, c);
    }
  }

  lemma RemoveCharAbsent(s: string, c: char)
    requires forall i :: 0 <= i < |s| ==> s[i] != c
    ensures RemoveChar(s, c) == s
  {
    if s != [] { RemoveCharAbsent(s[1..], c); }
  }

  /** `os.path.join(dir, name)` and `Path(dir) / name` for the cases the
      core produces: an absolute `name` replaces `dir`; otherwise one `/`
      separates the two unless `dir` is empty or already ends with `/`. */
  function JoinPath(dir: string, name: string): string {
    if name != [] && name[0] == '/' then name
    else if dir == [] then name
    else if dir[|dir| - 1] == '/' then dir + name
    else dir + "/" + name
  }

  lemma SplitSpaceThen(s: string)
    requires s != [] && IsSpace(s[0])
    ensures Split(s) == Split(s[1..])
  {
  }

  lemma SplitWordThen(w: string, t: string)
    requires IsWord(w)
    requires t == [] || IsSpace(t[0])
    ensures Split(w + t) == [w] + Split(t)
  {
    var s := w + t;
    WordLengthOfWord(w, t);
    assert s[..|w|] == w;
    assert s[|w|..] == t;
  }

  lemma {:induction false} WordLengthOfWord(w: string, t: string)
    requires forall i :: 0 <= i < |w| ==> !IsSpace(w[i])
    requires t == [] || IsSpace(t[0])
    ensures WordLength(w + t) == |w|
  {
    if w == [] {
      assert w + t == t;
    } else {
      assert (w + t)[1..] == w[1..] + t;
      WordLengthOfWord(w[1..], t);
    }
  }

  /** Splitting words joined by single spaces gives the words back. */
  lemma {:induction false} SplitJoin(ws: seq<string>)
    requires forall k :: 0 <= k < |ws| ==> IsWord(ws[k])
    ensures Split(Join(ws, " ")) == ws
  {
    if ws == [] {
    } else if |ws| == 1 {
      SplitWordThen(ws[0], "");
      assert ws[0] + "" == ws[0];
    } else {
      var rest := Join(ws[1..], " ");
      SplitJoin(ws[1..]);
      assert ws[0] + " " + rest == ws[0] + (" " + rest);
      SplitWordThen(ws[0], " " + rest);
      SplitSpaceThen(" " + rest);
      assert (" " + rest)[1..] == rest;
    }
  }

  /** Words joined by single spaces are blank only when there are none. */
  lemma JoinAllSpace(ws: seq<string>)
    requires forall k :: 0 <= k < |ws| ==> IsWord(ws[k])
    ensures AllSpace(Join(ws, " ")) <==> ws == []
  {
    if |ws| == 1 {
      assert Join(ws, " ")[0] == ws[0][0];
    } else if |ws| > 1 {
      assert Join(ws, " ")[0] == ws[0][0];
    }
  }
}

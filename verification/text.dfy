/**
 * The parts of Python's `str` and slicing behaviour the lead pipeline relies on:
 * `s[:k]`, `sep.join`, `str.split(sep)`, `str.replace(old, "")`, `str.startswith`,
 * `str.strip`, `str.split()`, `int(...)` and ASCII case folding.
 */
module Text {
  import opened Wrappers

  /** Python's `s[:k]` for any integer `k`; a negative `k` counts back from the end. */
  function Take<T>(s: seq<T>, k: int): (r: seq<T>)
    ensures |r| <= |s|
    ensures 0 <= k ==> |r| == if k <= |s| then k else |s|
    ensures k < 0 ==> |r| == if |s| + k < 0 then 0 else |s| + k
  {
    if 0 <= k then (if k <= |s| then s[..k] else s)
    else if |s| + k < 0 then [] else s[..|s| + k]
  }

  /** `sep.join(xs)`. */
  function Join(xs: seq<string>, sep: string): string
    decreases |xs|
  {
    if |xs| == 0 then "" else if |xs| == 1 then xs[0] else xs[0] + sep + Join(xs[1..], sep)
  }

  /** The first index at or after `from` where `pat` occurs in `s` (`str.find`). */
  function IndexOf(s: string, pat: string, from: nat): (r: Option<nat>)
    requires from <= |s|
    ensures r.Some? ==> from <= r.value && r.value + |pat| <= |s| && s[r.value..r.value + |pat|] == pat
    decreases |s| - from
  {
    if |s| < from + |pat| then None
    else if s[from..from + |pat|] == pat then Some(from)
    else if from == |s| then None
    else IndexOf(s, pat, from + 1)
  }

  /** `s.split(sep)` for a non-empty separator: cut at each leftmost, non-overlapping occurrence. */
  function Split(s: string, sep: string): (r: seq<string>)
    requires sep != []
    ensures |r| > 0
    decreases |s|
  {
    match IndexOf(s, sep, 0)
    case None => [s]
    case Some(i) => [s[..i]] + Split(s[i + |sep|..], sep)
  }

  /** No string of `xs` contains the character `c`. */
  predicate FreeOf(xs: seq<string>, c: char) {
    forall i, k :: 0 <= i < |xs| && 0 <= k < |xs[i]| ==> xs[i][k] != c
  }

  lemma {:induction false} IndexOfAbsent(s: string, sep: string, from: nat)
    requires sep != [] && from <= |s|
    requires forall k :: from <= k < |s| ==> s[k] != sep[0]
    ensures IndexOf(s, sep, from) == None
    decreases |s| - from
  {
    if from + |sep| <= |s| {
      assert s[from..from + |sep|][0] == s[from];
      IndexOfAbsent(s, sep, from + 1);
    }
  }

  lemma {:induction false} IndexOfAfter(a: string, sep: string, b: string, from: nat)
    requires sep != [] && from <= |a|
    requires forall k :: from <= k < |a| ==> a[k] != sep[0]
    ensures IndexOf(a + sep + b, sep, from) == Some(|a|)
    decreases |a| - from
  {
    var s := a + sep + b;
    if from == |a| {
      assert s[from..from + |sep|] == sep;
    } else {
      assert s[from..from + |sep|][0] == a[from];
      IndexOfAfter(a, sep, b, from + 1);
    }
  }

  /** Splitting a join at its separator gives the parts back, when no part holds the separator's first character. */
  lemma {:induction false} SplitJoin(xs: seq<string>, sep: string)
    requires sep != [] && |xs| > 0 && FreeOf(xs, sep[0])
    ensures Split(Join(xs, sep), sep) == xs
    decreases |xs|
  {
    if |xs| == 1 {
      IndexOfAbsent(xs[0], sep, 0);
    } else {
      var rest := Join(xs[1..], sep);
      assert Join(xs, sep) == xs[0] + sep + rest;
      assert forall k :: 0 <= k < |xs[0]| ==> xs[0][k] != sep[0];
      SplitFirst(xs[0], sep, rest);
      assert FreeOf(xs[1..], sep[0]) by {
        forall i, k | 0 <= i < |xs[1..]| && 0 <= k < |xs[1..][i]| ensures xs[1..][i][k] != sep[0] {
          assert xs[1..][i] == xs[i + 1];
        }
      }
      SplitJoin(xs[1..], sep);
    }
  }

  /** A piece free of the separator's first character, then the separator, splits off as the first part. */
  lemma SplitFirst(a: string, sep: string, rest: string)
    requires sep != [] && forall k :: 0 <= k < |a| ==> a[k] != sep[0]
    ensures Split(a + sep + rest, sep) == [a] + Split(rest, sep)
  {
    IndexOfAfter(a, sep, rest, 0);
    var s := a + sep + rest;
    assert s[..|a|] == a;
    assert s[|a| + |sep|..] == rest;
  }

  /** `s.startswith(p)`. */
  predicate StartsWith(s: string, p: string) {
    |p| <= |s| && s[..|p|] == p
  }

  /** `pat` occurs in `s` at index `i`. */
  predicate OccursAt(s: string, pat: string, i: nat) {
    i + |pat| <= |s| && s[i..i + |pat|] == pat
  }

  /** `x` is a substring of `s`. */
  predicate OccursIn(s: string, x: string) {
    exists i: nat | i <= |s| :: OccursAt(s, x, i)
  }

  /** `pat` occurs nowhere in `s`. */
  predicate Absent(s: string, pat: string) {
    forall i: nat | i <= |s| :: !OccursAt(s, pat, i)
  }

  /** `s.replace(pat, "")`: every leftmost, non-overlapping occurrence of `pat` removed. */
  function RemoveAll(s: string, pat: string): string
    requires pat != []
    decreases |s|
  {
    if |s| < |pat| then s
    else if s[..|pat|] == pat then RemoveAll(s[|pat|..], pat)
    else [s[0]] + RemoveAll(s[1..], pat)
  }

  lemma {:induction false} RemoveAllAbsent(s: string, pat: string)
    requires pat != [] && Absent(s, pat)
    ensures RemoveAll(s, pat) == s
    decreases |s|
  {
    if |s| >= |pat| {
      assert s[0..|pat|] == s[..|pat|];
      assert !OccursAt(s, pat, 0);
      assert Absent(s[1..], pat) by {
        forall i: nat | i <= |s[1..]| ensures !OccursAt(s[1..], pat, i) {
          assert !OccursAt(s, pat, i + 1);
          if i + |pat| <= |s[1..]| {
            assert s[1..][i..i + |pat|] == s[i + 1..i + 1 + |pat|];
          }
        }
      }
      RemoveAllAbsent(s[1..], pat);
      assert s == [s[0]] + s[1..];
    }
  }

  /** Removing a leading `pat` from a string that holds no further `pat` leaves exactly the rest. */
  lemma RemoveLeading(pat: string, rest: string)
    requires pat != [] && Absent(rest, pat)
    ensures RemoveAll(pat + rest, pat) == rest
  {
    var s := pat + rest;
    assert s[..|pat|] == pat;
    assert s[|pat|..] == rest;
    RemoveAllAbsent(rest, pat);
    assert |s| >= |pat|;
  }

  // ---- characters ----

  predicate IsDigit(c: char) { '0' <= c <= '9' }

  /** Python's `str.isspace` / the `\s` of a `str` pattern (Py_UNICODE_ISSPACE). */
  predicate IsSpace(c: char) {
    ('\t' <= c <= '\r') || ('\U{1C}' <= c <= ' ') || c == '\U{85}' || c == '\U{A0}' || c == '\U{1680}'
    || ('\U{2000}' <= c <= '\U{200A}') || c == '\U{2028}' || c == '\U{2029}' || c == '\U{202F}'
    || c == '\U{205F}' || c == '\U{3000}'
  }

  function LowerChar(c: char): char {
    if 'A' <= c <= 'Z' then (c as int - 'A' as int + 'a' as int) as char else c
  }

  /** ASCII lower-casing. */
  function Lower(s: string): (r: string)
    ensures |r| == |s| && forall i :: 0 <= i < |s| ==> r[i] == LowerChar(s[i])
  {
    seq(|s|, i requires 0 <= i < |s| => LowerChar(s[i]))
  }

  /** `s` equals `word` ignoring ASCII case; `word` is lower-case. */
  predicate EqualsIgnoringCase(s: string, word: string) {
    |s| == |word| && forall i :: 0 <= i < |s| ==> LowerChar(s[i]) == word[i]
  }

  /** `word` occurs in `s` at `p`, ignoring ASCII case. */
  predicate WordAt(s: string, p: nat, word: string) {
    p + |word| <= |s| && EqualsIgnoringCase(s[p..p + |word|], word)
  }

  /** `word` occurs somewhere in `s`, ignoring ASCII case (`re.search(word, s, re.IGNORECASE)`). */
  predicate ContainsIgnoringCase(s: string, word: string) {
    exists p: nat | p <= |s| :: WordAt(s, p, word)
  }

  // ---- whitespace ----

  /**
   * The whitespace `int()` strips: Python keeps U+001C..U+001F as they are (they are below
   * U+007F and not ASCII whitespace), so unlike `str.split` it refuses them.
   */
  predicate IsIntSpace(c: char) {
    IsSpace(c) && !('\U{1C}' <= c <= '\U{1F}')
  }

  /** `s` with leading characters of the class `space` removed. */
  function TrimLeft(s: string, space: char -> bool): (r: string)
    ensures |r| <= |s|
    ensures r != [] ==> !space(r[0])
  {
    if s != [] && space(s[0]) then TrimLeft(s[1..], space) else s
  }

  /** `s` with trailing characters of the class `space` removed. */
  function TrimRight(s: string, space: char -> bool): (r: string)
    ensures |r| <= |s|
    ensures r != [] ==> !space(r[|r| - 1])
  {
    if s != [] && space(s[|s| - 1]) then TrimRight(s[..|s| - 1], space) else s
  }

  /** What `int()` strips around its argument before reading digits. */
  function IntStrip(s: string): string {
    TrimRight(TrimLeft(s, IsIntSpace), IsIntSpace)
  }

  /** `s.split()[0]`, or None where Python raises IndexError (the string is blank). */
  function FirstWord(s: string): (r: Option<string>)
    ensures r.Some? ==> r.value != [] && forall i :: 0 <= i < |r.value| ==> !IsSpace(r.value[i])
  {
    var t := TrimLeft(s, IsSpace);
    if t == [] then None else Some(t[..WordEnd(t, 0)])
  }

  function WordEnd(t: string, i: nat): (e: nat)
    requires i <= |t|
    ensures i <= e <= |t| && forall k :: i <= k < e ==> !IsSpace(t[k])
    ensures (e == i) ==> (i == |t| || IsSpace(t[i]))
    decreases |t| - i
  {
    if i < |t| && !IsSpace(t[i]) then WordEnd(t, i + 1) else i
  }

  // ---- integers ----

  function DigitValue(c: char): nat requires IsDigit(c) { c as int - '0' as int }

  function DigitChar(d: nat): (c: char) requires d < 10 ensures IsDigit(c) && DigitValue(c) == d {
    ('0' as int + d) as char
  }

  /** Decimal digits with single underscores allowed between digits, as `int()` accepts them. */
  predicate WellFormedDigits(s: string) {
    && s != [] && IsDigit(s[0]) && IsDigit(s[|s| - 1])
    && (forall i :: 0 <= i < |s| ==> IsDigit(s[i]) || s[i] == '_')
    && (forall i :: 0 <= i < |s| - 1 ==> !(s[i] == '_' && s[i + 1] == '_'))
  }

  /** The number the digits of `s` spell, underscores ignored. */
  function DigitsValue(s: string): nat
    requires forall i :: 0 <= i < |s| ==> IsDigit(s[i]) || s[i] == '_'
  {
    if s == [] then 0
    else if s[|s| - 1] == '_' then DigitsValue(s[..|s| - 1])
    else 10 * DigitsValue(s[..|s| - 1]) + DigitValue(s[|s| - 1])
  }

  /** `int(s)` in base 10, or None where Python raises ValueError. */
  function ParseInt(s: string): Option<int> {
    var t := IntStrip(s);
    var signed := t != [] && (t[0] == '+' || t[0] == '-');
    var digits := if signed then t[1..] else t;
    if WellFormedDigits(digits) then
      var v: int := DigitsValue(digits);
      Some(if signed && t[0] == '-' then -v else v)
    else None
  }

  function NatToString(n: nat): (r: string)
    ensures r != []
  {
    if n < 10 then [DigitChar(n)] else NatToString(n / 10) + [DigitChar(n % 10)]
  }

  lemma {:induction false} NatToStringDigits(n: nat)
    ensures forall i :: 0 <= i < |NatToString(n)| ==> IsDigit(NatToString(n)[i])
  {
    if n >= 10 { NatToStringDigits(n / 10); }
  }

  /** `str(n)` for an int. */
  function IntToString(n: int): string {
    if n < 0 then "-" + NatToString(-n) else NatToString(n)
  }

  lemma {:induction false} NatToStringValue(n: nat)
    ensures forall i :: 0 <= i < |NatToString(n)| ==> IsDigit(NatToString(n)[i])
    ensures DigitsValue(NatToString(n)) == n
  {
    NatToStringDigits(n);
    var s := NatToString(n);
    if n >= 10 {
      NatToStringValue(n / 10);
      assert s[..|s| - 1] == NatToString(n / 10);
    }
  }

  lemma StripUnpadded(s: string)
    requires s != [] && !IsIntSpace(s[0]) && !IsIntSpace(s[|s| - 1])
    ensures IntStrip(s) == s
  {
    assert TrimLeft(s, IsIntSpace) == s;
    assert TrimRight(s, IsIntSpace) == s;
  }

  lemma DigitsWellFormed(d: string)
    requires d != [] && forall i :: 0 <= i < |d| ==> IsDigit(d[i])
    ensures WellFormedDigits(d)
  {
  }

  /** `int(str(n)) == n`: the integer parser reads back what Python prints. */
  lemma ParseIntOfIntToString(n: int)
    ensures ParseInt(IntToString(n)) == Some(n)
  {
    if n < 0 {
      ParseIntOfNegative(n);
    } else {
      NatToStringValue(n);
      ParseIntDigits(NatToString(n));
    }
  }

  /** `int(str(n)) == n` for a negative `n`. */
  lemma ParseIntOfNegative(n: int)
    requires n < 0
    ensures ParseInt(IntToString(n)) == Some(n)
  {
    var t := IntToString(n);
    NatToStringValue(-n);
    NegativeShape(n);
    ParseIntNegative(t, NatToString(-n));
  }

  /** A plain run of digits reads as its value. */
  lemma ParseIntDigits(d: string)
    requires d != [] && forall i :: 0 <= i < |d| ==> IsDigit(d[i])
    ensures ParseInt(d) == Some(DigitsValue(d))
  {
    DigitsWellFormed(d);
    StripUnpadded(d);
  }

  /** `str` of a negative number is a minus sign, then the digits of its magnitude, unpadded. */
  lemma NegativeShape(n: int)
    requires n < 0
    ensures IntToString(n) != [] && IntStrip(IntToString(n)) == IntToString(n)
    ensures IntToString(n)[0] == '-' && IntToString(n)[1..] == NatToString(-n)
  {
    var d := NatToString(-n);
    NatToStringDigits(-n);
    var s := "-" + d;
    assert s[1..] == d;
    assert s[|s| - 1] == d[|d| - 1];
    StripUnpadded(s);
  }

  /** An unpadded minus sign before a run of digits negates their value. */
  lemma ParseIntNegative(t: string, d: string)
    requires t != [] && IntStrip(t) == t && t[0] == '-' && t[1..] == d
    requires d != [] && forall i :: 0 <= i < |d| ==> IsDigit(d[i])
    ensures ParseInt(t) == Some(-(DigitsValue(d) as int))
  {
    DigitsWellFormed(d);
  }
}

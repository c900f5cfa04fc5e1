/**
 * Hand-written recognisers for the regular expressions of the enrichment tool. Each
 * follows the pattern's own shape and, where the regex engine backtracks, the order
 * in which it tries alternatives, so the match it reports is the one Python reports.
 * Digits are ASCII, case folding is ASCII, whitespace is Python's `\s`.
 */
module Patterns {
  import opened Wrappers
  import opened Text

  /** `n` digits start at `p`. */
  predicate DigitsAt(s: string, p: nat, n: nat) {
    p + n <= |s| && forall k :: p <= k < p + n ==> IsDigit(s[k])
  }

  // ---- Brazilian phone shapes ----

  /** A character the phone cleaner is meant to keep: a digit, `+`, `(`, `)`, `-` or whitespace. */
  predicate IsPhoneChar(c: char) {
    IsDigit(c) || c == '+' || c == '(' || c == ')' || c == '-' || IsSpace(c)
  }

  predicate PhoneCharsIn(s: string, p: nat, e: nat)
    requires p <= e <= |s|
  {
    forall k :: p <= k < e ==> IsPhoneChar(s[k])
  }

  /** `-?\d{4}` at `p`, trying the hyphen first; the end of the match. */
  function DashFour(s: string, p: nat): (r: Option<nat>)
    ensures r.Some? ==> p + 4 <= r.value <= |s| && PhoneCharsIn(s, p, r.value)
  {
    if p < |s| && s[p] == '-' && DigitsAt(s, p + 1, 4) then Some(p + 5)
    else if DigitsAt(s, p, 4) then Some(p + 4)
    else None
  }

  /** `\d{4,5}-?\d{4}` at `p`, trying five digits before four. */
  function Subscriber(s: string, p: nat): (r: Option<nat>)
    ensures r.Some? ==> p + 8 <= r.value <= |s| && PhoneCharsIn(s, p, r.value)
  {
    if DigitsAt(s, p, 5) && DashFour(s, p + 5).Some? then DashFour(s, p + 5)
    else if DigitsAt(s, p, 4) then DashFour(s, p + 4)
    else None
  }

  /** `\s?\d{4,5}-?\d{4}` at `p`, trying the space first. */
  function SpacedSubscriber(s: string, p: nat): (r: Option<nat>)
    ensures r.Some? ==> p + 8 <= r.value <= |s| && PhoneCharsIn(s, p, r.value)
  {
    if p < |s| && IsSpace(s[p]) && Subscriber(s, p + 1).Some? then Subscriber(s, p + 1) else Subscriber(s, p)
  }

  /** `\d{2}\s?\d{4,5}-?\d{4}` at `p`: area code, then the subscriber number. */
  function AreaAndSubscriber(s: string, p: nat): (r: Option<nat>)
    ensures r.Some? ==> p + 10 <= r.value <= |s| && PhoneCharsIn(s, p, r.value)
  {
    if DigitsAt(s, p, 2) then SpacedSubscriber(s, p + 2) else None
  }

  /** The three phone patterns, in the order the finder applies them. */
  datatype PhoneShape =
    | Parenthesized   // \(\d{2}\)\s?\d{4,5}-?\d{4}
    | Bare            // \d{2}\s?\d{4,5}-?\d{4}
    | International   // \+55\s?\d{2}\s?\d{4,5}-?\d{4}

  const PhoneShapes: seq<PhoneShape> := [Parenthesized, Bare, International]

  /** Where a match of `shape` starting at `p` ends, if one does. */
  function PhoneAt(shape: PhoneShape, s: string, p: nat): (r: Option<nat>)
    ensures r.Some? ==> p + 10 <= r.value <= |s| && PhoneCharsIn(s, p, r.value)
  {
    match shape
    case Parenthesized =>
      if p + 4 <= |s| && s[p] == '(' && DigitsAt(s, p + 1, 2) && s[p + 3] == ')' then SpacedSubscriber(s, p + 4)
      else None
    case Bare => AreaAndSubscriber(s, p)
    case International =>
      if p + 3 <= |s| && s[p..p + 3] == "+55" then
        if p + 3 < |s| && IsSpace(s[p + 3]) && AreaAndSubscriber(s, p + 4).Some? then AreaAndSubscriber(s, p + 4)
        else AreaAndSubscriber(s, p + 3)
      else None
  }

  /** `re.findall` of one phone pattern over `s[p..]`: leftmost, non-overlapping matches, in order. */
  function FindPhones(shape: PhoneShape, s: string, p: nat): (r: seq<string>)
    requires p <= |s|
    ensures forall i :: 0 <= i < |r| ==> |r[i]| >= 10 && forall k :: 0 <= k < |r[i]| ==> IsPhoneChar(r[i][k])
    ensures forall i :: 0 <= i < |r| ==> OccursIn(s, r[i])
    decreases |s| - p
  {
    if p == |s| then []
    else match PhoneAt(shape, s, p)
      case Some(e) =>
        var m := s[p..e];
        assert OccursAt(s, m, p);
        assert OccursIn(s, m);
        [m] + FindPhones(shape, s, e)
      case None => FindPhones(shape, s, p + 1)
  }

  /** Every phone the three patterns find in `text`: the set the finder accumulates. */
  function PhoneSet(text: string): set<string> {
    set shape, x | shape in PhoneShapes && x in FindPhones(shape, text, 0) :: x
  }

  /** What the phone pattern was meant to keep of `p`: its phone characters, in order. */
  function KeepPhoneChars(p: string): (r: string)
    ensures |r| <= |p| && forall k :: 0 <= k < |r| ==> IsPhoneChar(r[k])
  {
    if p == [] then [] else (if IsPhoneChar(p[0]) then [p[0]] else []) + KeepPhoneChars(p[1..])
  }

  /** Cleaning a string made only of phone characters changes nothing. */
  lemma {:induction false} KeepPhoneCharsClean(p: string)
    requires forall k :: 0 <= k < |p| ==> IsPhoneChar(p[k])
    ensures KeepPhoneChars(p) == p
  {
    if p != [] {
      KeepPhoneCharsClean(p[1..]);
      assert p == [p[0]] + p[1..];
    }
  }

  /** Every phone the finder reports is at least ten characters long and already clean. */
  lemma FoundPhonesAreClean(text: string, x: string)
    requires x in PhoneSet(text)
    ensures |x| >= 10 && KeepPhoneChars(x) == x
  {
    var shape :| shape in PhoneShapes && x in FindPhones(shape, text, 0);
    var i :| 0 <= i < |FindPhones(shape, text, 0)| && FindPhones(shape, text, 0)[i] == x;
    KeepPhoneCharsClean(x);
  }

  /** `re.findall` finds nothing exactly when the pattern matches at no position. */
  lemma {:induction false} FindPhonesNone(shape: PhoneShape, s: string, p: nat)
    requires p <= |s|
    ensures FindPhones(shape, s, p) == [] <==> forall q :: p <= q < |s| ==> PhoneAt(shape, s, q).None?
    decreases |s| - p
  {
    if p < |s| && PhoneAt(shape, s, p).None? {
      FindPhonesNone(shape, s, p + 1);
      if forall q :: p + 1 <= q < |s| ==> PhoneAt(shape, s, q).None? {
        forall q | p <= q < |s| ensures PhoneAt(shape, s, q).None? {
          if q != p { assert p + 1 <= q; }
        }
      }
    }
  }

  /**
   * The first phone found is the match at the leftmost matching position, and the search
   * resumes where that match ends.
   */
  lemma {:induction false} FindPhonesLeftmost(shape: PhoneShape, s: string, p: nat)
    requires p <= |s|
    ensures FindPhones(shape, s, p) != [] ==>
      exists i, e :: (&& p <= i < e <= |s| && PhoneAt(shape, s, i) == Some(e)
                      && (forall q :: p <= q < i ==> PhoneAt(shape, s, q).None?)
                      && FindPhones(shape, s, p) == [s[i..e]] + FindPhones(shape, s, e))
    decreases |s| - p
  {
    if p < |s| && PhoneAt(shape, s, p).None? {
      FindPhonesLeftmost(shape, s, p + 1);
      if FindPhones(shape, s, p) != [] {
        var i, e :| && p + 1 <= i < e <= |s| && PhoneAt(shape, s, i) == Some(e)
                    && (forall q :: p + 1 <= q < i ==> PhoneAt(shape, s, q).None?)
                    && FindPhones(shape, s, p + 1) == [s[i..e]] + FindPhones(shape, s, e);
        assert forall q :: p <= q < i ==> PhoneAt(shape, s, q).None?;
      }
    }
  }

  /** Cleaning works character by character: a concatenation cleans to the concatenation of the cleanings. */
  lemma {:induction false} KeepPhoneCharsAppend(a: string, b: string)
    ensures KeepPhoneChars(a + b) == KeepPhoneChars(a) + KeepPhoneChars(b)
    decreases |a|
  {
    if a == [] {
      assert a + b == b;
    } else {
      assert (a + b)[0] == a[0];
      assert (a + b)[1..] == a[1..] + b;
      KeepPhoneCharsAppend(a[1..], b);
    }
  }

  /** A single character survives cleaning exactly when it is a phone character. */
  lemma KeepPhoneCharsOne(c: char)
    ensures KeepPhoneChars([c]) == if IsPhoneChar(c) then [c] else []
  {
    assert [c][1..] == [];
  }

  // ---- CNPJ ----

  /** `\d{2}\.\d{3}\.\d{3}/\d{4}-\d{2}` at `p`. */
  predicate CnpjAt(s: string, p: nat) {
    && DigitsAt(s, p, 2) && p + 18 <= |s|
    && s[p + 2] == '.' && DigitsAt(s, p + 3, 3) && s[p + 6] == '.' && DigitsAt(s, p + 7, 3)
    && s[p + 10] == '/' && DigitsAt(s, p + 11, 4) && s[p + 15] == '-' && DigitsAt(s, p + 16, 2)
  }

  /** `re.search` for the CNPJ pattern from `p`: the index of the leftmost match. */
  function FindCnpj(s: string, p: nat): (r: Option<nat>)
    requires p <= |s|
    decreases |s| - p
  {
    if p == |s| then None else if CnpjAt(s, p) then Some(p) else FindCnpj(s, p + 1)
  }

  /** The search reports the leftmost match, and reports none only when there is none. */
  lemma {:induction false} FindCnpjLeftmost(s: string, p: nat)
    requires p <= |s|
    ensures FindCnpj(s, p).Some? ==> var i := FindCnpj(s, p).value;
      p <= i && CnpjAt(s, i) && forall q :: p <= q < i ==> !CnpjAt(s, q)
    ensures FindCnpj(s, p).None? <==> forall q :: p <= q ==> !CnpjAt(s, q)
    decreases |s| - p
  {
    if p < |s| && !CnpjAt(s, p) {
      FindCnpjLeftmost(s, p + 1);
    }
  }

  // ---- founding year ----

  /** The end of the run of whitespace that starts at `p`. */
  function SpaceRunEnd(s: string, p: nat): (e: nat)
    requires p <= |s|
    ensures p <= e <= |s| && (forall k :: p <= k < e ==> IsSpace(s[k])) && (e < |s| ==> !IsSpace(s[e]))
    decreases |s| - p
  {
    if p < |s| && IsSpace(s[p]) then SpaceRunEnd(s, p + 1) else p
  }

  /** `\s+(\d{4})` at `p`: the four captured digits. */
  function SpacedYear(s: string, p: nat): (r: Option<string>)
    requires p <= |s|
    ensures r.Some? ==> |r.value| == 4 && forall k :: 0 <= k < 4 ==> IsDigit(r.value[k])
  {
    var e := SpaceRunEnd(s, p);
    if p < e && DigitsAt(s, e, 4) then Some(s[e..e + 4]) else None
  }

  /** `desde\s+(\d{4})|fundad[ao]\s+em\s+(\d{4})` at `p`, ignoring case: the year either group captures. */
  function YearAt(s: string, p: nat): (r: Option<string>)
    requires p <= |s|
    ensures r.Some? ==> |r.value| == 4 && forall k :: 0 <= k < 4 ==> IsDigit(r.value[k])
  {
    if WordAt(s, p, "desde") && SpacedYear(s, p + 5).Some? then SpacedYear(s, p + 5)
    else if WordAt(s, p, "fundad") && p + 6 < |s| && (LowerChar(s[p + 6]) == 'a' || LowerChar(s[p + 6]) == 'o') then
      var e := SpaceRunEnd(s, p + 7);
      if p + 7 < e && WordAt(s, e, "em") then SpacedYear(s, e + 2) else None
    else None
  }

  /** `re.search` for the year pattern from `p`: the year of the leftmost match. */
  function FindYear(s: string, p: nat): (r: Option<string>)
    requires p <= |s|
    decreases |s| - p
  {
    if p == |s| then None else if YearAt(s, p).Some? then YearAt(s, p) else FindYear(s, p + 1)
  }

  /** The year reported is taken from the leftmost position where the pattern matches. */
  lemma {:induction false} FindYearLeftmost(s: string, p: nat)
    requires p <= |s|
    ensures FindYear(s, p).Some? ==>
      exists i :: p <= i < |s| && YearAt(s, i) == FindYear(s, p) && forall q :: p <= q < i ==> YearAt(s, q).None?
    decreases |s| - p
  {
    if p < |s| && YearAt(s, p).None? {
      FindYearLeftmost(s, p + 1);
      if FindYear(s, p).Some? {
        var i :| p + 1 <= i < |s| && YearAt(s, i) == FindYear(s, p + 1)
          && forall q :: p + 1 <= q < i ==> YearAt(s, q).None?;
        assert forall q :: p <= q < i ==> YearAt(s, q).None?;
      }
    }
  }

  /** No year is reported exactly when the pattern matches nowhere. */
  lemma {:induction false} FindYearNone(s: string, p: nat)
    requires p <= |s|
    ensures FindYear(s, p).None? <==> forall q :: p <= q <= |s| ==> YearAt(s, q).None?
    decreases |s| - p
  {
    if p == |s| {
      YearAtEnd(s);
    } else if YearAt(s, p).None? {
      FindYearNone(s, p + 1);
      assert FindYear(s, p) == FindYear(s, p + 1);
      assert (forall q :: p <= q <= |s| ==> YearAt(s, q).None?) <==> (forall q :: p + 1 <= q <= |s| ==> YearAt(s, q).None?) by {
        if forall q :: p + 1 <= q <= |s| ==> YearAt(s, q).None? {
          forall q | p <= q <= |s| ensures YearAt(s, q).None? {
            if q != p { assert p + 1 <= q; }
          }
        }
      }
    } else {
      assert FindYear(s, p) == YearAt(s, p);
    }
  }

  /** Nothing matches at the very end of the text. */
  lemma YearAtEnd(s: string)
    ensures YearAt(s, |s|).None?
  {
    assert !WordAt(s, |s|, "desde") && !WordAt(s, |s|, "fundad");
  }

  // ---- e-mail shape check ----

  /** The first index at or after `from` holding `c`. */
  function CharIndex(s: string, c: char, from: nat): (r: Option<nat>)
    ensures r.Some? ==> from <= r.value < |s| && s[r.value] == c && forall k :: from <= k < r.value ==> s[k] != c
    ensures r.None? ==> forall k :: from <= k < |s| ==> s[k] != c
    decreases |s| - from
  {
    if |s| <= from then None else if s[from] == c then Some(from) else CharIndex(s, c, from + 1)
  }

  /** `re.match(r'^[^@]+@[^@]+\.[^@]+$', s)` succeeds. */
  predicate IsValidEmail(s: string) {
    match CharIndex(s, '@', 0)
    case None => false
    case Some(i) =>
      0 < i && CharIndex(s, '@', i + 1).None?
      && match CharIndex(s, '.', i + 2)
         case None => false
         case Some(j) => j < |s| - 1
  }

  /** The shape the pattern describes: `local@domain.tld`, each part non-empty, exactly one `@`. */
  ghost predicate EmailShape(s: string) {
    exists i, j :: 0 < i && i + 1 < j < |s| - 1 && s[i] == '@' && s[j] == '.'
      && forall k :: 0 <= k < |s| && k != i ==> s[k] != '@'
  }

  /** The recogniser accepts exactly the strings of that shape. */
  lemma ValidEmailIsShape(s: string)
    ensures IsValidEmail(s) <==> EmailShape(s)
  {
    if IsValidEmail(s) {
      var i := CharIndex(s, '@', 0).value;
      var j := CharIndex(s, '.', i + 2).value;
      assert 0 < i && i + 1 < j < |s| - 1 && s[i] == '@' && s[j] == '.';
    }
    if EmailShape(s) {
      var i, j :| 0 < i && i + 1 < j < |s| - 1 && s[i] == '@' && s[j] == '.'
        && forall k :: 0 <= k < |s| && k != i ==> s[k] != '@';
      assert CharIndex(s, '@', 0) == Some(i);
      var d := CharIndex(s, '.', i + 2);
      assert d.Some? && d.value <= j;
    }
  }

  // ---- social networks ----

  /** The platforms, in the order the finder tries them. */
  const Platforms: seq<string> := ["facebook", "instagram", "linkedin", "twitter", "youtube", "whatsapp"]

  /** The domains each platform's pattern looks for. */
  function PlatformDomains(platform: string): seq<string> {
    if platform == "facebook" then ["facebook.com/"]
    else if platform == "instagram" then ["instagram.com/"]
    else if platform == "linkedin" then ["linkedin.com/"]
    else if platform == "twitter" then ["twitter.com/"]
    else if platform == "youtube" then ["youtube.com/"]
    else if platform == "whatsapp" then ["wa.me/", "whatsapp.com/"]
    else []
  }

  /** `domain[^/\s]+` at `p`, ignoring case. */
  predicate DomainPathAt(h: string, p: nat, domain: string) {
    WordAt(h, p, domain) && p + |domain| < |h| && h[p + |domain|] != '/' && !IsSpace(h[p + |domain|])
  }

  /** `re.search(pattern, href, re.IGNORECASE)` for the platform's pattern. */
  predicate MatchesPlatform(href: string, platform: string) {
    exists d, p: nat | d in PlatformDomains(platform) && p <= |href| :: DomainPathAt(href, p, d)
  }
}

/**
 * The string helpers the two traits call (PHP's rtrim, trim, str_replace and
 * Laravel's Str::startsWith, endsWith, contains, afterLast, kebab, slug),
 * over ASCII text.
 */
module Strings {

  /** Str::startsWith: an empty needle never matches. */
  predicate StartsWith(s: string, needle: string) {
    needle != [] && needle <= s
  }

  /** Str::endsWith: an empty needle never matches. */
  predicate EndsWith(s: string, needle: string) {
    needle != [] && |needle| <= |s| && s[|s| - |needle|..] == needle
  }

  /** `needle` occurs somewhere in `s`. */
  predicate Occurs(s: string, needle: string) {
    needle <= s || (|s| > 0 && Occurs(s[1..], needle))
  }

  /** Str::contains: an empty needle never matches. */
  predicate Contains(s: string, needle: string) {
    needle != [] && Occurs(s, needle)
  }

  /** PHP rtrim with a one-character mask: the longest prefix that does not end in `c`. */
  function RTrim(s: string, c: char): (r: string)
    ensures r <= s
    ensures r == [] || r[|r| - 1] != c
    ensures forall i :: |r| <= i < |s| ==> s[i] == c
  {
    if |s| > 0 && s[|s| - 1] == c then RTrim(s[..|s| - 1], c) else s
  }

  /** PHP ltrim with a one-character mask: the longest suffix that does not start with `c`. */
  function LTrim(s: string, c: char): (r: string)
    ensures |r| <= |s| && r == s[|s| - |r|..]
    ensures r == [] || r[0] != c
    ensures forall i :: 0 <= i < |s| - |r| ==> s[i] == c
  {
    if |s| > 0 && s[0] == c then LTrim(s[1..], c) else s
  }

  /** PHP trim with a one-character mask. */
  function Trim(s: string, c: char): string {
    LTrim(RTrim(s, c), c)
  }

  /** PHP str_replace with one search string: every non-overlapping occurrence, left to right. */
  function Replace(s: string, search: string, replacement: string): string
    requires search != []
    decreases |s|
  {
    if |s| < |search| then s
    else if search <= s then replacement + Replace(s[|search|..], search, replacement)
    else [s[0]] + Replace(s[1..], search, replacement)
  }

  /** str_replace leaves a string without the search string as it is. */
  lemma {:induction false} ReplaceAbsent(s: string, search: string, replacement: string)
    requires search != [] && !Occurs(s, search)
    ensures Replace(s, search, replacement) == s
  {
    if |s| >= |search| {
      ReplaceAbsent(s[1..], search, replacement);
    }
  }

  /** Deleting one character distributes over concatenation. */
  lemma {:induction false} DeleteCharAppend(x: string, y: string, c: char)
    ensures Replace(x + y, [c], "") == Replace(x, [c], "") + Replace(y, [c], "")
  {
    if x != [] {
      assert (x + y)[1..] == x[1..] + y;
      DeleteCharAppend(x[1..], y, c);
    } else {
      assert x + y == y;
    }
  }

  /** Str::afterLast with a one-character search: what follows the last `c`, or all of `s`. */
  function AfterLast(s: string, c: char): (r: string)
    ensures |r| <= |s| && r == s[|s| - |r|..]
    ensures c !in r
    ensures |r| < |s| ==> s[|s| - |r| - 1] == c
  {
    if s == [] then []
    else if s[|s| - 1] == c then []
    else AfterLast(s[..|s| - 1], c) + [s[|s| - 1]]
  }

  /** What follows the last `c` of `x + [c] + y`, when `y` has no `c`, is `y`. */
  lemma {:induction false} AfterLastAppend(x: string, c: char, y: string)
    requires c !in y
    ensures AfterLast(x + [c] + y, c) == y
  {
    var s := x + [c] + y;
    if y == [] {
      assert s[|s| - 1] == c;
    } else {
      var y' := y[..|y| - 1];
      AfterLastAppend(x, c, y');
      assert s[..|s| - 1] == x + [c] + y';
      assert y == y' + [y[|y| - 1]];
    }
  }

  predicate IsUpper(c: char) { 'A' <= c <= 'Z' }

  predicate IsLowerLetter(c: char) { 'a' <= c <= 'z' }

  predicate IsDigit(c: char) { '0' <= c <= '9' }

  predicate IsAlphanumeric(c: char) { IsUpper(c) || IsLowerLetter(c) || IsDigit(c) }

  /** The characters PCRE's `\s` and PHP's ucwords treat as white space (ASCII). */
  predicate IsSpace(c: char) {
    c == ' ' || c == '\t' || c == '\n' || c == '\r' || c as int == 11 || c as int == 12
  }

  function ToLower(c: char): char {
    if IsUpper(c) then (c as int + 32) as char else c
  }

  function ToUpper(c: char): char {
    if IsLowerLetter(c) then (c as int - 32) as char else c
  }

  /** Str::lower (mb_strtolower), on ASCII letters. */
  function Lower(s: string): string {
    seq(|s|, i requires 0 <= i < |s| => ToLower(s[i]))
  }

  /** PHP ctype_lower: non-empty and only the letters a to z. */
  predicate CtypeLower(s: string) {
    |s| > 0 && forall i :: 0 <= i < |s| ==> IsLowerLetter(s[i])
  }

  /** PHP ucwords: the first character of `s` and every character after white space upper-cased. */
  function UcWords(s: string, atWordStart: bool := true): (r: string)
    ensures |r| == |s|
  {
    if s == [] then []
    else [if atWordStart then ToUpper(s[0]) else s[0]] + UcWords(s[1..], IsSpace(s[0]))
  }

  /** Keeps the characters of `s` that satisfy `keep`, in order. */
  function Filter(s: string, keep: char -> bool): (r: string)
    ensures |r| <= |s|
    ensures forall i :: 0 <= i < |r| ==> keep(r[i])
  {
    if s == [] then [] else (if keep(s[0]) then [s[0]] else []) + Filter(s[1..], keep)
  }

  /** preg_replace('/\s+/u', '', s). */
  function RemoveSpaces(s: string): string {
    Filter(s, c => !IsSpace(c))
  }

  /** preg_replace('/(.)(?=[A-Z])/u', '$1-', s): a hyphen after every character that precedes an upper-case letter. */
  function Hyphenate(t: string): string {
    if |t| <= 1 then t
    else [t[0]] + (if IsUpper(t[1]) then "-" else "") + Hyphenate(t[1..])
  }

  /** Deleting `c` from a one-character string. */
  lemma DeleteCharSingle(a: char, c: char)
    ensures Replace([a], [c], "") == if a == c then [] else [a]
  {
    assert [a][1..] == [];
    assert Replace([], [c], "") == [];
    if a == c {
      assert [c] <= [a];
    } else {
      assert [c][0] != [a][0];
    }
  }

  /** Deleting hyphens undoes Hyphenate: it only inserts hyphens. */
  lemma {:induction false} HyphenateOnlyInsertsHyphens(t: string)
    ensures Replace(Hyphenate(t), "-", "") == Replace(t, "-", "")
  {
    if |t| > 1 {
      var mid: string := if IsUpper(t[1]) then "-" else "";
      var rest := Hyphenate(t[1..]);
      assert Replace(mid, "-", "") == "" by {
        if mid != "" { DeleteCharSingle('-', '-'); }
      }
      calc {
        Replace(Hyphenate(t), "-", "");
        { assert Hyphenate(t) == [t[0]] + (mid + rest); }
        Replace([t[0]] + (mid + rest), "-", "");
        { DeleteCharAppend([t[0]], mid + rest, '-'); }
        Replace([t[0]], "-", "") + Replace(mid + rest, "-", "");
        { DeleteCharAppend(mid, rest, '-'); }
        Replace([t[0]], "-", "") + Replace(rest, "-", "");
        { HyphenateOnlyInsertsHyphens(t[1..]); }
        Replace([t[0]], "-", "") + Replace(t[1..], "-", "");
        { DeleteCharAppend([t[0]], t[1..], '-'); assert [t[0]] + t[1..] == t; }
        Replace(t, "-", "");
      }
    }
  }

  /** Every upper-case letter after the first character is preceded by a hyphen in Hyphenate's result. */
  lemma {:induction false} HyphenateMarksUpper(t: string, i: nat)
    requires 0 < i < |t| && IsUpper(t[i])
    ensures exists j :: 0 < j < |Hyphenate(t)| && Hyphenate(t)[j] == t[i] && Hyphenate(t)[j - 1] == '-'
  {
    var mid: string := if IsUpper(t[1]) then "-" else "";
    assert Hyphenate(t) == [t[0]] + mid + Hyphenate(t[1..]);
    if i == 1 {
      assert |Hyphenate(t[1..])| > 0 && Hyphenate(t[1..])[0] == t[1] by {
        if |t[1..]| > 1 {
          assert Hyphenate(t[1..]) == [t[1]] + (if IsUpper(t[2]) then "-" else "") + Hyphenate(t[2..]);
        }
      }
      assert Hyphenate(t)[2] == t[1] && Hyphenate(t)[1] == '-';
    } else {
      HyphenateMarksUpper(t[1..], i - 1);
      var j :| 0 < j < |Hyphenate(t[1..])| && Hyphenate(t[1..])[j] == t[1..][i - 1] && Hyphenate(t[1..])[j - 1] == '-';
      var k := 1 + |mid| + j;
      assert Hyphenate(t)[k] == Hyphenate(t[1..])[j];
      assert Hyphenate(t)[k - 1] == Hyphenate(t[1..])[j - 1];
    }
  }

  /** Str::kebab (Str::snake with '-'): unchanged when already lower-case, else hyphenated at upper-case letters and lowered. */
  function Kebab(s: string): string {
    if CtypeLower(s) then s else Lower(Hyphenate(RemoveSpaces(UcWords(s))))
  }

  /** Replaces each maximal run of characters satisfying `inRun` by one `sep`. */
  function CollapseRuns(s: string, inRun: char -> bool, sep: char, afterRun: bool := false): string {
    if s == [] then []
    else if inRun(s[0]) then (if afterRun then [] else [sep]) + CollapseRuns(s[1..], inRun, sep, true)
    else [s[0]] + CollapseRuns(s[1..], inRun, sep, false)
  }

  predicate IsSlugChar(c: char) { c == '-' || IsAlphanumeric(c) || IsSpace(c) }

  /** Str::slug with separator '-' and the dictionary {'@' => 'at'}, on ASCII text. */
  function Slug(s: string): string {
    var flipped := CollapseRuns(s, c => c == '_', '-');
    var words := Replace(flipped, "@", "-at-");
    var kept := Filter(Lower(words), IsSlugChar);
    var joined := CollapseRuns(kept, c => c == '-' || IsSpace(c), '-');
    Trim(joined, '-')
  }

  lemma {:induction false} CollapseRunsNone(s: string, inRun: char -> bool, sep: char, afterRun: bool)
    requires forall i :: 0 <= i < |s| ==> !inRun(s[i])
    ensures CollapseRuns(s, inRun, sep, afterRun) == s
  {
    if s != [] {
      CollapseRunsNone(s[1..], inRun, sep, false);
    }
  }

  lemma {:induction false} FilterAll(s: string, keep: char -> bool)
    requires forall i :: 0 <= i < |s| ==> keep(s[i])
    ensures Filter(s, keep) == s
  {
    if s != [] {
      FilterAll(s[1..], keep);
    }
  }

  lemma {:induction false} OccursInside(s: string, needle: string)
    requires Occurs(s, needle) && |needle| == 1
    ensures exists i :: 0 <= i < |s| && s[i] == needle[0]
  {
    if needle <= s {
      assert s[0] == needle[0];
    } else {
      OccursInside(s[1..], needle);
      var i :| 0 <= i < |s[1..]| && s[1..][i] == needle[0];
      assert s[i + 1] == needle[0];
    }
  }

  /** The slug of a class basename made of letters and digits is the basename lower-cased. */
  lemma SlugOfAlphanumeric(s: string)
    requires |s| > 0 && forall i :: 0 <= i < |s| ==> IsAlphanumeric(s[i])
    ensures Slug(s) == Lower(s)
  {
    CollapseRunsNone(s, c => c == '_', '-', false);
    if Occurs(s, "@") {
      OccursInside(s, "@");
    }
    ReplaceAbsent(s, "@", "-at-");
    var low := Lower(s);
    FilterAll(low, IsSlugChar);
    CollapseRunsNone(low, c => c == '-' || IsSpace(c), '-', false);
    assert RTrim(low, '-') == low;
    assert LTrim(low, '-') == low;
  }

  function Digit(d: nat): char
    requires d < 10
  {
    ('0' as int + d) as char
  }

  /** PHP's decimal rendering of a non-negative integer. */
  function NatToString(n: nat): (r: string)
    ensures |r| > 0 && forall i :: 0 <= i < |r| ==> IsDigit(r[i])
  {
    if n < 10 then [Digit(n)] else NatToString(n / 10) + [Digit(n % 10)]
  }

  /** The number a string of decimal digits denotes. */
  function DigitsValue(s: string): nat
    requires forall i :: 0 <= i < |s| ==> IsDigit(s[i])
  {
    if s == [] then 0
    else
      assert IsDigit(s[|s| - 1]);
      DigitsValue(s[..|s| - 1]) * 10 + (s[|s| - 1] as int - '0' as int)
  }

  /** Reading back a rendered number gives the number. */
  lemma {:induction false} NatToStringRoundTrip(n: nat)
    ensures DigitsValue(NatToString(n)) == n
  {
    if n >= 10 {
      NatToStringRoundTrip(n / 10);
      var r := NatToString(n);
      assert r[..|r| - 1] == NatToString(n / 10);
    }
  }

  /** PHP's string conversion of an integer (string concatenation with `.`). */
  function IntToString(i: int): string {
    if i < 0 then "-" + NatToString(-i) else NatToString(i)
  }

  /** A rendered integer starts with '-' exactly when it is negative. */
  lemma IntToStringSign(i: int)
    ensures |IntToString(i)| > 0 && (IntToString(i)[0] == '-' <==> i < 0)
  {
    if i >= 0 {
      assert IsDigit(NatToString(i)[0]);
    }
  }

  /** Distinct integers render as distinct strings. */
  lemma {:induction false} IntToStringInjective(a: int, b: int)
    requires IntToString(a) == IntToString(b)
    ensures a == b
  {
    IntToStringSign(a);
    IntToStringSign(b);
    if a < 0 {
      var sa, sb := NatToString(-a), NatToString(-b);
      assert sa == IntToString(a)[1..];
      assert sb == IntToString(b)[1..];
      NatToStringRoundTrip(-a);
      NatToStringRoundTrip(-b);
    } else {
      NatToStringRoundTrip(a);
      NatToStringRoundTrip(b);
    }
  }
}

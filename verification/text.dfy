/**
  String primitives the call scenarios rely on, stated over `seq<char>`:
  lower-casing, JavaScript's `trim`, `indexOf` and a multi-pattern substring search.
 */
module Text {

  /** A line terminator as JavaScript regular expressions and `trim` understand it. */
  predicate IsLineTerminator(c: char) {
    c == '\n' || c == '\r' || c == '\U{2028}' || c == '\U{2029}'
  }

  /** WhiteSpace or LineTerminator: the characters `String.prototype.trim` removes. */
  predicate IsSpace(c: char) {
    || c == ' ' || c == '\t' || c == '\U{000B}' || c == '\U{000C}'
    || c == '\U{00A0}' || c == '\U{1680}' || ('\U{2000}' <= c <= '\U{200A}')
    || c == '\U{202F}' || c == '\U{205F}' || c == '\U{3000}' || c == '\U{FEFF}'
    || IsLineTerminator(c)
  }

  /** A sentence terminator for the scenarios' `[.!?]` character classes. */
  predicate IsPunct(c: char) {
    c == '.' || c == '!' || c == '?'
  }

  predicate AllSpace(s: string) {
    forall k :: 0 <= k < |s| ==> IsSpace(s[k])
  }

  predicate NoPunct(s: string) {
    forall k :: 0 <= k < |s| ==> !IsPunct(s[k])
  }

  /** Lower-case mapping for ASCII letters and the Russian alphabet (А–Я and Ё); other characters are unchanged. */
  function Lower(c: char): (d: char)
    ensures 'A' <= c <= 'Z' ==> 'a' <= d <= 'z' && d as int - 'a' as int == c as int - 'A' as int
    ensures 'А' <= c <= 'Я' ==> 'а' <= d <= 'я' && d as int - 'а' as int == c as int - 'А' as int
    ensures c == 'Ё' ==> d == 'ё'
    ensures !('A' <= c <= 'Z') && !('А' <= c <= 'Я') && c != 'Ё' ==> d == c
    ensures IsSpace(d) <==> IsSpace(c)
    ensures IsPunct(d) <==> IsPunct(c)
    ensures IsLineTerminator(d) <==> IsLineTerminator(c)
  {
    if 'A' <= c <= 'Z' then (c as int + 32) as char
    else if 'А' <= c <= 'Я' then (c as int + 32) as char
    else if c == 'Ё' then 'ё'
    else c
  }

  /** `toLowerCase` restricted to the letters `Lower` covers. */
  function LowerStr(s: string): (r: string)
    ensures |r| == |s|
    ensures forall k :: 0 <= k < |s| ==> r[k] == Lower(s[k])
  {
    seq(|s|, k requires 0 <= k < |s| => Lower(s[k]))
  }

  /** Length as JavaScript's `.length` reports it: UTF-16 code units. */
  function Utf16Length(s: string): (n: nat)
    ensures |s| <= n <= 2 * |s|
  {
    if |s| == 0 then 0
    else (if s[0] as int > 0xFFFF then 2 else 1) + Utf16Length(s[1..])
  }

  // ---------------------------------------------------------------------
  // trim
  // ---------------------------------------------------------------------

  /** Position of the first non-space character of `s` at or after `i`, or `|s|`. */
  function SkipSpaces(s: string, i: nat): (n: nat)
    requires i <= |s|
    ensures i <= n <= |s| && (n == |s| || !IsSpace(s[n]))
    ensures forall k :: i <= k < n ==> IsSpace(s[k])
    decreases |s| - i
  {
    if i < |s| && IsSpace(s[i]) then SkipSpaces(s, i + 1) else i
  }

  /** Position just after the last non-space character of `s[lo..j]`, or `lo`. */
  function SkipSpacesBack(s: string, lo: nat, j: nat): (n: nat)
    requires lo <= j <= |s|
    ensures lo <= n <= j && (n == lo || !IsSpace(s[n - 1]))
    ensures forall k :: n <= k < j ==> IsSpace(s[k])
  {
    if j > lo && IsSpace(s[j - 1]) then SkipSpacesBack(s, lo, j - 1) else j
  }

  /** Number of leading spaces `trim` drops. */
  function TrimOffset(s: string): (n: nat)
    ensures n <= |s| && (n == |s| || !IsSpace(s[n]))
    ensures forall k :: 0 <= k < n ==> IsSpace(s[k])
  {
    SkipSpaces(s, 0)
  }

  /** `String.prototype.trim`: the longest infix with no space at either end, found by dropping spaces only. */
  function Trim(s: string): (r: string)
    ensures |r| > 0 ==> !IsSpace(r[0]) && !IsSpace(r[|r| - 1])
    ensures TrimOffset(s) + |r| <= |s| && r == s[TrimOffset(s)..TrimOffset(s) + |r|]
  {
    var a := TrimOffset(s);
    s[a..SkipSpacesBack(s, a, |s|)]
  }

  /** What `trim` drops is spaces, at both ends. */
  lemma TrimDropsSpaces(s: string)
    ensures forall k :: 0 <= k < TrimOffset(s) ==> IsSpace(s[k])
    ensures forall k :: TrimOffset(s) + |Trim(s)| <= k < |s| ==> IsSpace(s[k])
  {
  }

  /** A string `trim`s to nothing exactly when it is all spaces. */
  lemma TrimEmptyIffAllSpace(s: string)
    ensures Trim(s) == "" <==> AllSpace(s)
  {
  }

  /** Trimming text that already has no space at either end changes nothing. */
  lemma TrimTrimmed(s: string)
    requires |s| > 0 ==> !IsSpace(s[0]) && !IsSpace(s[|s| - 1])
    ensures Trim(s) == s
  {
    if |s| > 0 {
      assert TrimOffset(s) == 0;
      assert SkipSpacesBack(s, 0, |s|) == |s|;
    }
  }

  /** The scan for the first non-space stops at the only place it can. */
  lemma {:induction false} SkipSpacesUnique(s: string, i: nat, n: nat)
    requires i <= n <= |s| && (n == |s| || !IsSpace(s[n]))
    requires forall k :: i <= k < n ==> IsSpace(s[k])
    ensures SkipSpaces(s, i) == n
    decreases n - i
  {
    if i < n {
      SkipSpacesUnique(s, i + 1, n);
    }
  }

  /** The backward scan stops at the only place it can. */
  lemma {:induction false} SkipSpacesBackUnique(s: string, lo: nat, j: nat, n: nat)
    requires lo <= n <= j <= |s| && (n == lo || !IsSpace(s[n - 1]))
    requires forall k :: n <= k < j ==> IsSpace(s[k])
    ensures SkipSpacesBack(s, lo, j) == n
    decreases j
  {
    if n < j {
      SkipSpacesBackUnique(s, lo, j - 1, n);
    }
  }

  lemma TrimOffsetLeadingSpaces(a: string, y: string)
    requires AllSpace(a)
    ensures TrimOffset(a + y) == |a| + TrimOffset(y)
  {
    var s := a + y;
    var n := TrimOffset(y);
    forall k | 0 <= k < |a| + n
      ensures IsSpace(s[k])
    {
      if k >= |a| {
        assert s[k] == y[k - |a|];
      }
    }
    assert |a| + n == |s| || s[|a| + n] == y[n];
    SkipSpacesUnique(s, 0, |a| + n);
  }

  lemma SkipSpacesBackShift(a: string, y: string, lo: nat)
    requires lo <= |y|
    ensures SkipSpacesBack(a + y, |a| + lo, |a| + |y|) == |a| + SkipSpacesBack(y, lo, |y|)
  {
    var s := a + y;
    var e := SkipSpacesBack(y, lo, |y|);
    forall k | |a| + e <= k < |s|
      ensures IsSpace(s[k])
    {
      assert s[k] == y[k - |a|];
    }
    assert e == lo || s[|a| + e - 1] == y[e - 1];
    SkipSpacesBackUnique(s, |a| + lo, |s|, |a| + e);
  }

  /** Leading spaces do not change the result of `trim`. */
  lemma TrimLeadingSpaces(a: string, y: string)
    requires AllSpace(a)
    ensures Trim(a + y) == Trim(y)
  {
    var n := TrimOffset(y);
    TrimOffsetLeadingSpaces(a, y);
    SkipSpacesBackShift(a, y, n);
    var e := SkipSpacesBack(y, n, |y|);
    var l, r := Trim(a + y), Trim(y);
    assert |l| == |r|;
    forall k | 0 <= k < |l|
      ensures l[k] == r[k]
    {
      assert l[k] == (a + y)[|a| + n + k] == y[n + k];
    }
  }

  /** Text ending in a non-space character loses only its leading spaces to `trim`. */
  lemma TrimNoTrailingSpace(s: string)
    requires |s| > 0 && !IsSpace(s[|s| - 1])
    ensures Trim(s) == s[TrimOffset(s)..]
  {
    SkipSpacesBackUnique(s, TrimOffset(s), |s|, |s|);
  }

  /** `trim` drops characters but never adds one. */
  lemma TrimKeepsNoPunct(s: string)
    requires NoPunct(s)
    ensures NoPunct(Trim(s))
  {
  }

  /** `trim` is idempotent. */
  lemma TrimIdempotent(s: string)
    ensures Trim(Trim(s)) == Trim(s)
  {
    TrimTrimmed(Trim(s));
  }

  // ---------------------------------------------------------------------
  // indexOf
  // ---------------------------------------------------------------------

  /** `pat` occurs in `text` starting at position `i`. */
  predicate MatchesAt(text: string, pat: string, i: nat) {
    i + |pat| <= |text| && text[i..i + |pat|] == pat
  }

  /** Reference definition of "is a substring of". */
  predicate Occurs(pat: string, text: string) {
    exists i: nat :: i <= |text| && MatchesAt(text, pat, i)
  }

  /** The search loop of `indexOf`, starting at position `k`. */
  function IndexFrom(text: string, pat: string, k: nat): (r: int)
    decreases |text| - k
    ensures r == -1 || (k <= r && MatchesAt(text, pat, r))
    ensures r == -1 <==> forall j: nat :: k <= j <= |text| ==> !MatchesAt(text, pat, j)
    ensures r >= 0 ==> forall j: nat :: k <= j < r ==> !MatchesAt(text, pat, j)
  {
    if k + |pat| > |text| then -1
    else if MatchesAt(text, pat, k) then k
    else IndexFrom(text, pat, k + 1)
  }

  /** `text.indexOf(pat)`: the first position where `pat` occurs, or -1. */
  function IndexOf(text: string, pat: string): (r: int)
    ensures r >= 0 <==> Occurs(pat, text)
    ensures r >= 0 ==> MatchesAt(text, pat, r) && forall j: nat :: j < r ==> !MatchesAt(text, pat, j)
    ensures r >= -1
  {
    IndexFrom(text, pat, 0)
  }

  /** `text.indexOf(p) >= 0` for some `p`, tried in list order as the scenarios' pattern loops do. */
  function ContainsAny(text: string, pats: seq<string>): (b: bool)
    ensures b <==> exists p :: p in pats && Occurs(p, text)
  {
    if |pats| == 0 then false
    else IndexOf(text, pats[0]) >= 0 || ContainsAny(text, pats[1..])
  }

  /** A pattern found in a string is found in any string containing that string. */
  lemma OccursTrans(pat: string, mid: string, text: string)
    requires Occurs(pat, mid) && Occurs(mid, text)
    ensures Occurs(pat, text)
  {
    var i: nat :| i <= |mid| && MatchesAt(mid, pat, i);
    var j: nat :| j <= |text| && MatchesAt(text, mid, j);
    assert text[j..j + |mid|] == mid;
    forall k | 0 <= k < |pat|
      ensures text[j + i + k] == pat[k]
    {
      assert text[j + i + k] == text[j..j + |mid|][i + k];
      assert mid[i + k] == mid[i..i + |pat|][k];
    }
    assert text[j + i..j + i + |pat|] == pat;
    assert MatchesAt(text, pat, j + i);
  }

  /** Every character of an occurring pattern appears in the text: the usual way to refute an occurrence. */
  lemma OccursChars(pat: string, text: string, c: char)
    requires Occurs(pat, text) && c in pat
    ensures c in text
  {
    var i: nat :| i <= |text| && MatchesAt(text, pat, i);
    var k :| 0 <= k < |pat| && pat[k] == c;
    assert text[i + k] == text[i..i + |pat|][k];
  }

  /** A string is the part before position `e`, the character at `e`, and the part after. */
  lemma SplitAround(t: string, e: nat)
    requires e < |t|
    ensures t == t[..e] + [t[e]] + t[e + 1..]
  {
    assert t[e..] == [t[e]] + t[e + 1..];
    assert t == t[..e] + t[e..];
  }

  /** A string occurs in itself. */
  lemma OccursSelf(s: string)
    ensures Occurs(s, s)
  {
    assert MatchesAt(s, s, 0);
  }

  /** A string occurs in any text that has it as a prefix, suffix or infix. */
  lemma OccursInfix(a: string, s: string, b: string)
    ensures Occurs(s, a + s + b)
  {
    assert (a + s + b)[|a|..|a| + |s|] == s;
    assert MatchesAt(a + s + b, s, |a|);
  }

  /** Concatenation regroups freely. */
  lemma AppendAssoc<A>(x: seq<A>, y: seq<A>, z: seq<A>)
    ensures x + (y + z) == (x + y) + z
  {
  }
}

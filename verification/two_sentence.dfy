/**
  The two-sentence reply sanitiser of the inbound scenario.

  After the role labels are stripped, the text is cut into the matches of the
  regular expression `[^.!?]+[.!?]+` (a run of ordinary characters followed by a
  run of terminators, searched globally from left to right). When there are more
  than two matches the reply becomes the first two joined by one space; otherwise
  the stripped text is kept. The result is trimmed, and an empty result becomes
  the fallback 'Поняла вас. Что-то ещё?'.
 */
module TwoSentence {
  import opened Text
  import opened Sanitize

  // ---------------------------------------------------------------------
  // The global matches of [^.!?]+[.!?]+
  // ---------------------------------------------------------------------

  /**
    The matches found by a global search that starts at position `i`. A match
    cannot start on a terminator; one that starts on an ordinary character takes
    the whole run of ordinary characters and then the whole run of terminators,
    and fails when no terminator follows.
   */
  function SentencesFrom(t: string, i: nat): (ss: seq<string>)
    requires i <= |t|
    decreases |t| - i
  {
    if i == |t| then []
    else if IsPunct(t[i]) then SentencesFrom(t, i + 1)
    else
      var k := NextPunct(t, i);
      if k == |t| then []
      else
        var q := NextPlain(t, k);
        [t[i..q]] + SentencesFrom(t, q)
  }

  /** `text.match(/[^.!?]+[.!?]+/g)`, with no match given as the empty sequence. */
  function Sentences(t: string): (ss: seq<string>)
  {
    SentencesFrom(t, 0)
  }

  /** One match: a non-empty run without terminators followed by a non-empty run of terminators. */
  predicate SentenceShaped(s: string) {
    var k := PlainRun(s);
    0 < k < |s| && forall j :: k <= j < |s| ==> IsPunct(s[j])
  }

  /** Where the unterminated tail of `t[..j]` starts: just after its last terminator, or 0. */
  function PunctEnd(t: string, j: nat): (b: nat)
    requires j <= |t|
    ensures b <= j && (b == 0 || IsPunct(t[b - 1]))
    ensures forall k :: b <= k < j ==> !IsPunct(t[k])
  {
    if j == 0 || IsPunct(t[j - 1]) then j else PunctEnd(t, j - 1)
  }

  /** The start of the text after the last terminator of `t`. */
  function TailStart(t: string): (b: nat)
    ensures b <= |t| && NoPunct(t[b..])
  {
    var b := PunctEnd(t, |t|);
    assert forall k :: 0 <= k < |t| - b ==> t[b..][k] == t[b + k];
    b
  }

  const TwoSentenceFallback: string := "Поняла вас. Что-то ещё?"

  /** The sentence-cutting step: more than two matches are replaced by the first two joined by a space. */
  function CutTwoSentences(t: string): (r: string)
  {
    var ss := Sentences(t);
    if |ss| > 2 then ss[0] + " " + ss[1] else t
  }

  /** `cleanResponse` of the inbound scenario. */
  function CleanTwoSentences(raw: string): (r: string)
    ensures |r| > 0
  {
    TrimOr(CutTwoSentences(StripLabels(raw)), TwoSentenceFallback)
  }

  // ---------------------------------------------------------------------
  // Shape and cover of the matches
  // ---------------------------------------------------------------------

  /** Leading terminators are skipped: the search effectively starts at the next ordinary character. */
  lemma {:induction false} SentencesSkip(t: string, i: nat)
    requires i <= |t|
    ensures SentencesFrom(t, i) == SentencesFrom(t, NextPlain(t, i))
    decreases |t| - i
  {
    if i < |t| && IsPunct(t[i]) {
      SentencesSkip(t, i + 1);
    }
  }

  /** The match taken at an ordinary character `i` is sentence-shaped. */
  lemma MatchShaped(t: string, i: nat)
    requires i < |t| && !IsPunct(t[i]) && NextPunct(t, i) < |t|
    ensures SentenceShaped(t[i..NextPlain(t, NextPunct(t, i))])
  {
    var k := NextPunct(t, i);
    var s := t[i..NextPlain(t, k)];
    assert forall j :: 0 <= j < k - i ==> s[j] == t[i + j];
    PlainRunUnique(s, k - i);
  }

  /** Every match is a run of ordinary characters followed by a run of terminators. */
  lemma {:induction false} SentencesFromShaped(t: string, i: nat)
    requires i <= |t|
    ensures forall n :: 0 <= n < |SentencesFrom(t, i)| ==> SentenceShaped(SentencesFrom(t, i)[n])
    decreases |t| - i
  {
    if i == |t| {
    } else if IsPunct(t[i]) {
      SentencesFromShaped(t, i + 1);
    } else if NextPunct(t, i) < |t| {
      var q := NextPlain(t, NextPunct(t, i));
      MatchShaped(t, i);
      SentencesFromShaped(t, q);
    }
  }

  lemma SentencesShaped(t: string)
    ensures forall n :: 0 <= n < |Sentences(t)| ==> SentenceShaped(Sentences(t)[n])
  {
    SentencesFromShaped(t, 0);
  }

  lemma {:induction false} PunctEndBelow(t: string, j: nat, i: nat)
    requires i <= j <= |t|
    requires forall k :: i <= k < j ==> !IsPunct(t[k])
    ensures PunctEnd(t, j) <= i
    decreases j
  {
    if i < j {
      PunctEndBelow(t, j - 1, i);
    }
  }

  lemma {:induction false} PunctEndAbove(t: string, j: nat, p: nat)
    requires p < j <= |t| && IsPunct(t[p])
    ensures p < PunctEnd(t, j)
    decreases j
  {
    if !IsPunct(t[j - 1]) {
      PunctEndAbove(t, j - 1, p);
    }
  }

  /** A match taken at an ordinary character: the search then resumes at the next ordinary character `q`. */
  lemma MatchStep(t: string, i: nat)
    requires i < |t| && !IsPunct(t[i]) && NextPunct(t, i) < |t|
    ensures var q := NextPlain(t, NextPunct(t, i));
      && q - 1 < TailStart(t) && NextPlain(t, q) == q
      && Concat(SentencesFrom(t, i)) == t[i..q] + Concat(SentencesFrom(t, q))
  {
    var q := NextPlain(t, NextPunct(t, i));
    PunctEndAbove(t, |t|, q - 1);
    NextPlainUnique(t, q, q);
    var ss := SentencesFrom(t, i);
    assert ss[1..] == SentencesFrom(t, q);
  }

  /** The matches found from `i` are, laid end to end, the text from the next ordinary character up to the tail. */
  predicate CoveredFrom(t: string, i: nat)
    requires i <= |t|
  {
    var a := NextPlain(t, i);
    (a < TailStart(t) ==> Concat(SentencesFrom(t, i)) == t[a..TailStart(t)])
    && (TailStart(t) <= a ==> SentencesFrom(t, i) == [])
  }

  lemma JoinSlices(t: string, i: nat, q: nat, b: nat)
    requires i <= q <= b <= |t|
    ensures t[i..q] + t[q..b] == t[i..b]
  {
  }

  /** One match followed by the cover of the rest is the cover from its start. */
  lemma CoverStep(t: string, i: nat)
    requires i < |t| && !IsPunct(t[i]) && NextPunct(t, i) < |t|
    requires CoveredFrom(t, NextPlain(t, NextPunct(t, i)))
    ensures CoveredFrom(t, i)
  {
    var b := TailStart(t);
    var q := NextPlain(t, NextPunct(t, i));
    MatchStep(t, i);
    assert NextPlain(t, i) == i;
    var rest := Concat(SentencesFrom(t, q));
    if q < b {
      JoinSlices(t, i, q, b);
    } else {
      assert SentencesFrom(t, q) == [] && q == b;
      assert t[i..q] + rest == t[i..b];
    }
  }

  lemma {:induction false} SentencesFromCover(t: string, i: nat)
    requires i <= |t|
    ensures CoveredFrom(t, i)
    decreases |t| - i
  {
    if i == |t| {
    } else if IsPunct(t[i]) {
      SentencesFromCover(t, i + 1);
    } else if NextPunct(t, i) == |t| {
      PunctEndBelow(t, |t|, i);
    } else {
      SentencesFromCover(t, NextPlain(t, NextPunct(t, i)));
      CoverStep(t, i);
    }
  }

  /**
    The matches cover the text: `t` is a run of terminators, then the matches
    laid end to end, then a tail without terminators.
   */
  lemma SentencesCover(t: string)
    ensures var a := NextPlain(t, 0);
      a <= TailStart(t) && Concat(Sentences(t)) == t[a..TailStart(t)]
  {
    var a := NextPlain(t, 0);
    var b := TailStart(t);
    SentencesFromCover(t, 0);
    if 0 < a {
      PunctEndAbove(t, |t|, a - 1);
    }
  }

  // ---------------------------------------------------------------------
  // Matches of joined and trimmed texts
  // ---------------------------------------------------------------------

  /** One step of the search at an ordinary character followed, later, by a terminator. */
  lemma MatchUnfold(t: string, i: nat)
    requires i < |t| && !IsPunct(t[i]) && NextPunct(t, i) < |t|
    ensures var q := NextPlain(t, NextPunct(t, i));
      SentencesFrom(t, i) == [t[i..q]] + SentencesFrom(t, q)
  {
  }

  /** The match taken at `i` inside `x` is the same inside `x + y` when `x` ends on a terminator and `y` starts with an ordinary character. */
  lemma MatchInPrefix(x: string, y: string, i: nat)
    requires i < |x| && !IsPunct(x[i]) && IsPunct(x[|x| - 1])
    requires |y| == 0 || !IsPunct(y[0])
    ensures NextPunct(x, i) < |x| && NextPunct(x + y, i) == NextPunct(x, i)
    ensures var q := NextPlain(x, NextPunct(x, i));
      NextPlain(x + y, NextPunct(x, i)) == q && (x + y)[i..q] == x[i..q]
  {
    var k := NextPunct(x, i);
    NextPunctUnique(x + y, i, k);
    var q := NextPlain(x, k);
    NextPlainUnique(x + y, k, q);
  }

  lemma {:induction false} SentencesPrefix(x: string, y: string, i: nat)
    requires i <= |x| && (|x| == 0 || IsPunct(x[|x| - 1]))
    requires |y| == 0 || !IsPunct(y[0])
    ensures SentencesFrom(x + y, i) == SentencesFrom(x, i) + SentencesFrom(x + y, |x|)
    decreases |x| - i
  {
    if i == |x| {
    } else if IsPunct(x[i]) {
      SentencesPrefix(x, y, i + 1);
    } else {
      MatchInPrefix(x, y, i);
      SentencesPrefix(x, y, NextPlain(x, NextPunct(x, i)));
    }
  }

  /** A sentence-shaped text placed after a prefix is found as one match. */
  lemma MatchAtEnd(u: string, v: string)
    requires SentenceShaped(v)
    ensures SentencesFrom(u + v, |u|) == [v]
  {
    var t := u + v;
    var k := PlainRun(v);
    assert t[|u|] == v[0];
    assert NextPunct(t, |u|) == |u| + k by { NextPunctUnique(t, |u|, |u| + k); }
    assert NextPlain(t, |u| + k) == |t| by { NextPlainUnique(t, |u| + k, |t|); }
    MatchUnfold(t, |u|);
    assert t[|u|..|t|] == v;
  }

  /** Matches do not cross a boundary between a terminator and an ordinary character: a sentence after a terminator is one more match. */
  lemma SentencesAppendShaped(u: string, v: string)
    requires |u| == 0 || IsPunct(u[|u| - 1])
    requires SentenceShaped(v)
    ensures Sentences(u + v) == Sentences(u) + [v]
  {
    SentencesPrefix(u, v, 0);
    MatchAtEnd(u, v);
  }

  /** A single sentence-shaped text is its own only match. */
  lemma SentencesOfShaped(s: string)
    requires SentenceShaped(s)
    ensures Sentences(s) == [s]
  {
    var k := PlainRun(s);
    NextPlainUnique(s, k, |s|);
    assert !IsPunct(s[0]) && NextPunct(s, 0) == k;
    assert SentencesFrom(s, 0) == [s[0..|s|]] + SentencesFrom(s, |s|);
    assert s[0..|s|] == s;
  }

  lemma SentencesOfPunct(s: string)
    requires AllPunct(s)
    ensures Sentences(s) == []
  {
    SentencesSkip(s, 0);
    NextPlainUnique(s, 0, |s|);
  }

  // ---------------------------------------------------------------------
  // Properties of the two-sentence sanitiser
  // ---------------------------------------------------------------------

  /** A space in front of a sentence-shaped text keeps it sentence-shaped. */
  lemma SpaceBeforeShaped(s: string)
    requires SentenceShaped(s)
    ensures SentenceShaped(" " + s)
  {
    PlainRunUnique(" " + s, PlainRun(s) + 1);
  }

  /** What is left of a match after dropping part of its leading run is at most one match. */
  lemma SentencesOfMatchSuffix(s: string, o: nat)
    requires SentenceShaped(s) && o <= PlainRun(s)
    ensures |Sentences(s[o..])| <= 1
  {
    var u := s[o..];
    var k := PlainRun(s);
    if o < k {
      PlainRunUnique(u, k - o);
      SentencesOfShaped(u);
    } else {
      assert AllPunct(u);
      SentencesOfPunct(u);
    }
  }

  /** Two matches joined by a space and trimmed: at most two matches, the last being the second one with its space. */
  lemma JoinTwo(s0: string, s1: string)
    requires SentenceShaped(s0) && SentenceShaped(s1)
    ensures var r := Trim(s0 + " " + s1);
      && |r| > 0 && IsPunct(r[|r| - 1])
      && 1 <= |Sentences(r)| <= 2 && Sentences(r)[|Sentences(r)| - 1] == " " + s1
  {
    var w := s0 + " " + s1;
    var k0 := PlainRun(s0);
    assert w[|w| - 1] == s1[|s1| - 1];
    TrimNoTrailingSpace(w);
    var o := TrimOffset(w);
    assert w[k0] == s0[k0];
    var u := s0[o..];
    var v := " " + s1;
    assert w[o..] == u + v;
    assert u[|u| - 1] == s0[|s0| - 1];
    SpaceBeforeShaped(s1);
    SentencesOfMatchSuffix(s0, o);
    SentencesAppendShaped(u, v);
  }

  /** Every match of a role-label-free text is role-label-free. */
  lemma {:induction false} SentencesFromLabelFree(t: string, i: nat)
    requires i <= |t| && RoleLabelFree(t)
    ensures forall n :: 0 <= n < |SentencesFrom(t, i)| ==> RoleLabelFree(SentencesFrom(t, i)[n])
    decreases |t| - i
  {
    if i == |t| {
    } else if IsPunct(t[i]) {
      SentencesFromLabelFree(t, i + 1);
    } else if NextPunct(t, i) < |t| {
      var q := NextPlain(t, NextPunct(t, i));
      RoleLabelFreeSlice(t, i, q);
      SentencesFromLabelFree(t, q);
    }
  }

  lemma CutTwoSentencesRoleLabelFree(t: string)
    requires RoleLabelFree(t)
    ensures RoleLabelFree(CutTwoSentences(t))
  {
    var ss := Sentences(t);
    if |ss| > 2 {
      SentencesFromLabelFree(t, 0);
      RoleLabelFreeJoin(ss[0], " ", ss[1]);
    }
  }

  /** The reply never contains a role label. */
  lemma CleanTwoSentencesRoleLabelFree(raw: string)
    ensures RoleLabelFree(CleanTwoSentences(raw))
  {
    var t := StripLabels(raw);
    StripLabelsRoleLabelFree(raw);
    CutTwoSentencesRoleLabelFree(t);
    NoColonRoleLabelFree(TwoSentenceFallback);
    TrimOrRoleLabelFree(CutTwoSentences(t), TwoSentenceFallback);
  }

  /** With more than two matches the reply keeps exactly the first two: at most two matches, ending with the second one after a space. */
  lemma CleanTwoSentencesLong(raw: string)
    requires |Sentences(StripLabels(raw))| > 2
    ensures var ss := Sentences(StripLabels(raw));
      CleanTwoSentences(raw) == Trim(ss[0] + " " + ss[1])
    ensures var ss := Sentences(StripLabels(raw));
      var r := CleanTwoSentences(raw);
      && IsPunct(r[|r| - 1]) && 1 <= |Sentences(r)| <= 2
      && Sentences(r)[|Sentences(r)| - 1] == " " + ss[1]
  {
    var ss := Sentences(StripLabels(raw));
    SentencesShaped(StripLabels(raw));
    JoinTwo(ss[0], ss[1]);
  }

  /** The fallback is two matches, "Поняла вас." and " Что-то ещё?". */
  lemma FallbackSentences()
    ensures Sentences(TwoSentenceFallback) == ["Поняла вас.", " Что-то ещё?"]
  {
    var x, y := "Поняла вас.", " Что-то ещё?";
    assert TwoSentenceFallback == x + y;
    PlainRunUnique(x, 10);
    PlainRunUnique(y, 11);
    SentencesOfShaped(x);
    SentencesAppendShaped(x, y);
  }

  /** A text without terminators has no match. */
  lemma SentencesNoPunct(t: string)
    requires NoPunct(t)
    ensures Sentences(t) == []
  {
    NextPunctUnique(t, 0, |t|);
  }

  /** An empty or label-only answer gets the fallback. */
  lemma CleanTwoSentencesBlank(raw: string)
    requires AllSpace(StripLabels(raw))
    ensures CleanTwoSentences(raw) == TwoSentenceFallback
  {
    var t := StripLabels(raw);
    assert NoPunct(t);
    SentencesNoPunct(t);
    TrimEmptyIffAllSpace(t);
  }

  /** At most two matches: the reply is the stripped text, trimmed, and never the fallback unless that text is blank. */
  lemma CleanTwoSentencesShort(raw: string)
    requires |Sentences(StripLabels(raw))| <= 2
    ensures var t := StripLabels(raw);
      CleanTwoSentences(raw) == (if AllSpace(t) then TwoSentenceFallback else Trim(t))
  {
    TrimEmptyIffAllSpace(StripLabels(raw));
  }

  /** A trimmed, label-free, non-empty text of at most two matches is left as it is. */
  lemma CleanTwoSentencesFixed(r: string)
    requires |r| > 0 && RoleLabelFree(r) && Trim(r) == r && |Sentences(r)| <= 2
    ensures CleanTwoSentences(r) == r
  {
    StripLabelsIdentity(r);
  }

  /** The fallback is trimmed, label-free and made of two sentences. */
  lemma FallbackShape()
    ensures var f := TwoSentenceFallback;
      |f| > 0 && RoleLabelFree(f) && Trim(f) == f && |Sentences(f)| == 2
  {
    FallbackSentences();
    FallbackLabelFree();
    FallbackTrimmed();
  }

  lemma FallbackLabelFree()
    ensures RoleLabelFree(TwoSentenceFallback)
  {
    NoColonRoleLabelFree(TwoSentenceFallback);
  }

  lemma FallbackTrimmed()
    ensures Trim(TwoSentenceFallback) == TwoSentenceFallback
  {
    TrimTrimmed(TwoSentenceFallback);
  }

  /** Unlike the one-sentence fallback, this fallback is left unchanged by a second cleaning. */
  lemma CleanTwoSentencesFallbackFixed()
    ensures CleanTwoSentences(TwoSentenceFallback) == TwoSentenceFallback
  {
    FallbackShape();
    CleanTwoSentencesFixed(TwoSentenceFallback);
  }
}

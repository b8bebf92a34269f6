/**
  The custom-greeting splitter of the elevenlabs scenario.

  A greeting passed in the call data is cut at every run of '.', '!' and '?'
  (JavaScript `split(/[.!?]+/)`), the pieces that are blank after trimming are
  dropped, and every remaining piece is trimmed and closed with one '.'. The
  parts are then spoken one after the other.
 */
module Greeting {
  import opened Text
  import opened Sanitize

  // ---------------------------------------------------------------------
  // The split and the part list
  // ---------------------------------------------------------------------

  /**
    `t.split(/[.!?]+/)`: the pieces between the runs of terminators, in order,
    with the empty piece before a leading run and after a trailing run.
   */
  function SplitTerminators(t: string): (segs: seq<string>)
    decreases |t|
  {
    var k := PlainRun(t);
    if k == |t| then [t] else [t[..k]] + SplitTerminators(t[NextPlain(t, k)..])
  }

  /** `.filter(s => s.trim().length > 0).map(s => s.trim() + '.')`. */
  function KeepSpoken(segs: seq<string>): (parts: seq<string>)
  {
    if |segs| == 0 then [] else Spoken(segs[0]) + KeepSpoken(segs[1..])
  }

  /** The part made from one piece: none when it is blank, else the trimmed piece closed by '.'. */
  function Spoken(seg: string): (parts: seq<string>)
  {
    var s := Trim(seg);
    if s == "" then [] else [s + "."]
  }

  /** The greeting parts made from a custom greeting. */
  function GreetingParts(g: string): (parts: seq<string>)
  {
    KeepSpoken(SplitTerminators(g))
  }

  /** A part as spoken: a trimmed, non-empty text without terminators, closed by one '.'. */
  predicate SpokenPart(p: string) {
    && |p| >= 2 && p[|p| - 1] == '.'
    && NoPunct(p[..|p| - 1])
    && !IsSpace(p[0]) && !IsSpace(p[|p| - 2])
  }

  /** The characters of `s` that are neither white space nor terminators, in order. */
  function Letters(s: string): (r: string)
  {
    if |s| == 0 then ""
    else (if IsSpace(s[0]) || IsPunct(s[0]) then "" else [s[0]]) + Letters(s[1..])
  }

  // ---------------------------------------------------------------------
  // Shape of the parts
  // ---------------------------------------------------------------------

  /** No piece of the split contains a terminator. */
  lemma {:induction false} SplitTerminatorsNoPunct(t: string)
    ensures forall s <- SplitTerminators(t) :: NoPunct(s)
    decreases |t|
  {
    var k := PlainRun(t);
    if k < |t| {
      SplitTerminatorsNoPunct(t[NextPlain(t, k)..]);
    }
  }

  /** Every greeting part is trimmed, non-empty, and ends with its only terminator, a '.'. */
  lemma GreetingPartsShape(g: string)
    ensures forall p <- GreetingParts(g) :: SpokenPart(p)
  {
    SplitTerminatorsNoPunct(g);
    KeepSpokenShape(SplitTerminators(g));
  }

  lemma SpokenPartOf(s: string)
    requires NoPunct(s) && Trim(s) != ""
    ensures SpokenPart(Trim(s) + ".")
  {
    var b := Trim(s);
    TrimKeepsNoPunct(s);
    assert (b + ".")[..|b|] == b;
  }

  lemma {:induction false} KeepSpokenShape(segs: seq<string>)
    requires forall s <- segs :: NoPunct(s)
    ensures forall p <- KeepSpoken(segs) :: SpokenPart(p)
  {
    if |segs| > 0 {
      KeepSpokenShape(segs[1..]);
      if Trim(segs[0]) != "" {
        SpokenPartOf(segs[0]);
      }
    }
  }

  // ---------------------------------------------------------------------
  // Nothing but white space and terminators is lost
  // ---------------------------------------------------------------------

  lemma {:induction false} LettersAppend(a: string, b: string)
    ensures Letters(a + b) == Letters(a) + Letters(b)
  {
    if |a| > 0 {
      assert (a + b)[1..] == a[1..] + b;
      LettersAppend(a[1..], b);
    } else {
      assert a + b == b;
    }
  }

  lemma {:induction false} LettersBlank(s: string)
    requires forall k :: 0 <= k < |s| ==> IsSpace(s[k]) || IsPunct(s[k])
    ensures Letters(s) == ""
  {
    if |s| > 0 {
      LettersBlank(s[1..]);
    }
  }

  /** `Letters` is empty exactly for texts made of white space and terminators. */
  lemma {:induction false} LettersEmptyIff(s: string)
    ensures Letters(s) == "" <==> forall k :: 0 <= k < |s| ==> IsSpace(s[k]) || IsPunct(s[k])
  {
    if |s| > 0 {
      LettersEmptyIff(s[1..]);
      if Letters(s) == "" {
        forall k | 0 <= k < |s|
          ensures IsSpace(s[k]) || IsPunct(s[k])
        {
          if k > 0 {
            assert s[k] == s[1..][k - 1];
          }
        }
      }
    }
  }

  lemma LettersTrim(s: string)
    ensures Letters(Trim(s)) == Letters(s)
  {
    var o := TrimOffset(s);
    var r := Trim(s);
    TrimDropsSpaces(s);
    assert s == s[..o] + r + s[o + |r|..];
    LettersAppend(s[..o] + r, s[o + |r|..]);
    LettersAppend(s[..o], r);
    LettersBlank(s[..o]);
    LettersBlank(s[o + |r|..]);
  }

  lemma LettersPart(s: string)
    ensures Letters(Trim(s) + ".") == Letters(s)
  {
    LettersAppend(Trim(s), ".");
    LettersTrim(s);
  }

  lemma ConcatSingle(x: string)
    ensures Concat([x]) == x
  {
    assert [x][1..] == [];
  }

  lemma SliceThree(t: string, k: nat, q: nat)
    requires k <= q <= |t|
    ensures t == t[..k] + (t[k..q] + t[q..])
  {
    assert t[..k] + t[k..q] == t[..q];
  }

  /** Dropping a run of white space and terminators from the middle of a text does not change its letters. */
  lemma LettersSkipBlank(t: string, k: nat, q: nat)
    requires k <= q <= |t|
    requires forall j :: k <= j < q ==> IsSpace(t[j]) || IsPunct(t[j])
    ensures Letters(t) == Letters(t[..k]) + Letters(t[q..])
  {
    var a, m, b := t[..k], t[k..q], t[q..];
    forall j | 0 <= j < |m|
      ensures IsSpace(m[j]) || IsPunct(m[j])
    {
      assert m[j] == t[k + j];
    }
    LettersBlank(m);
    LettersAppend(m, b);
    LettersAppend(a, m + b);
    SliceThree(t, k, q);
  }

  lemma {:induction false} LettersSplit(t: string)
    ensures Letters(Concat(SplitTerminators(t))) == Letters(t)
    decreases |t|
  {
    var k := PlainRun(t);
    var segs := SplitTerminators(t);
    if k < |t| {
      var q := NextPlain(t, k);
      var rest := SplitTerminators(t[q..]);
      assert segs == [t[..k]] + rest;
      assert Concat(segs) == t[..k] + Concat(rest) by {
        assert (segs)[1..] == rest;
      }
      LettersSplit(t[q..]);
      LettersSkipBlank(t, k, q);
      LettersAppend(t[..k], Concat(rest));
    } else {
      assert segs == [t];
      ConcatSingle(t);
    }
  }

  lemma {:induction false} LettersKeep(segs: seq<string>)
    ensures Letters(Concat(KeepSpoken(segs))) == Letters(Concat(segs))
  {
    if |segs| > 0 {
      var s := Trim(segs[0]);
      var head := Spoken(segs[0]);
      LettersKeep(segs[1..]);
      ConcatAppend(head, KeepSpoken(segs[1..]));
      LettersAppend(Concat(head), Concat(KeepSpoken(segs[1..])));
      LettersAppend(segs[0], Concat(segs[1..]));
      if s == "" {
        TrimEmptyIffAllSpace(segs[0]);
        LettersBlank(segs[0]);
      } else {
        ConcatSingle(s + ".");
        LettersPart(segs[0]);
      }
    }
  }

  lemma {:induction false} ConcatAppend(xs: seq<string>, ys: seq<string>)
    ensures Concat(xs + ys) == Concat(xs) + Concat(ys)
  {
    if |xs| > 0 {
      assert (xs + ys)[1..] == xs[1..] + ys;
      ConcatAppend(xs[1..], ys);
    } else {
      assert xs + ys == ys;
    }
  }

  /** The parts, run together, keep every character of the greeting except white space and terminators, in order. */
  lemma GreetingPartsLetters(g: string)
    ensures Letters(Concat(GreetingParts(g))) == Letters(g)
  {
    LettersKeep(SplitTerminators(g));
    LettersSplit(g);
  }

  /** A greeting yields no part exactly when it is made of white space and terminators only. */
  lemma GreetingPartsEmptyIff(g: string)
    ensures GreetingParts(g) == [] <==> forall k :: 0 <= k < |g| ==> IsSpace(g[k]) || IsPunct(g[k])
  {
    var parts := GreetingParts(g);
    GreetingPartsShape(g);
    GreetingPartsLetters(g);
    LettersEmptyIff(g);
    if parts != [] {
      var p := parts[0];
      assert SpokenPart(p);
      assert Concat(parts) == p + Concat(parts[1..]);
      LettersStartLetter(p, Concat(parts[1..]));
    }
  }

  lemma LettersStartLetter(p: string, rest: string)
    requires |p| > 0 && !IsSpace(p[0]) && p[0] != '.' && p[0] != '!' && p[0] != '?'
    ensures Letters(p + rest) != ""
  {
    assert (p + rest)[0] == p[0];
  }

  // ---------------------------------------------------------------------
  // Splitting again what was spoken gives the same parts
  // ---------------------------------------------------------------------

  lemma {:induction false} KeepAppend(xs: seq<string>, ys: seq<string>)
    ensures KeepSpoken(xs + ys) == KeepSpoken(xs) + KeepSpoken(ys)
  {
    if |xs| > 0 {
      var zs := xs + ys;
      assert zs[0] == xs[0] && zs[1..] == xs[1..] + ys;
      KeepAppend(xs[1..], ys);
    } else {
      assert xs + ys == ys;
    }
  }

  lemma SliceAppend(a: string, b: string, i: nat)
    requires i <= |a|
    ensures (a + b)[..i] == a[..i] && (a + b)[i..] == a[i..] + b
  {
  }

  /** One step of the split: the piece before the first run of terminators, then the split of the rest. */
  lemma SplitStep(t: string, k: nat, q: nat)
    requires k == PlainRun(t) < |t| && q == NextPlain(t, k)
    ensures GreetingParts(t) == KeepSpoken([t[..k]]) + GreetingParts(t[q..])
  {
    var rest := SplitTerminators(t[q..]);
    assert SplitTerminators(t) == [t[..k]] + rest;
    KeepAppend([t[..k]], rest);
  }

  lemma SplitEmpty()
    ensures SplitTerminators("") == [""]
    ensures GreetingParts("") == []
  {
    assert PlainRun("") == 0;
  }

  /** Leading terminators only add an empty piece, which is dropped. */
  lemma SkipLeadingTerminators(b: string)
    ensures GreetingParts(b[NextPlain(b, 0)..]) == GreetingParts(b)
  {
    var r := NextPlain(b, 0);
    if r > 0 {
      PlainRunUnique(b, 0);
      assert b[..0] == "";
      assert SplitTerminators(b) == [""] + SplitTerminators(b[r..]);
      KeepAppend([""], SplitTerminators(b[r..]));
    } else {
      assert b[0..] == b;
    }
  }

  /** A text ending in a terminator can be split on its own: the split of `a + b` is the split of `a` followed by that of `b`. */
  lemma {:induction false} GreetingPartsAppend(a: string, b: string)
    requires |a| > 0 && IsPunct(a[|a| - 1])
    ensures GreetingParts(a + b) == GreetingParts(a) + GreetingParts(b)
    decreases |a|, 1
  {
    if NextPlain(a, PlainRun(a)) < |a| {
      AppendInner(a, b);
    } else {
      AppendFinalRun(a, b);
    }
  }

  lemma {:induction false} AppendInner(a: string, b: string)
    requires |a| > 0 && IsPunct(a[|a| - 1])
    requires NextPlain(a, PlainRun(a)) < |a|
    ensures GreetingParts(a + b) == GreetingParts(a) + GreetingParts(b)
    decreases |a|, 0
  {
    var k := PlainRun(a);
    var q := NextPlain(a, k);
    AppendInnerRun(a, b);
    GreetingPartsAppend(a[q..], b);
    Regroup(KeepSpoken([a[..k]]), GreetingParts(a[q..] + b), GreetingParts(a[q..]), GreetingParts(b),
      GreetingParts(a + b), GreetingParts(a));
  }

  lemma Regroup(h: seq<string>, x: seq<string>, y: seq<string>, z: seq<string>, l: seq<string>, r: seq<string>)
    requires l == h + x && r == h + y && x == y + z
    ensures l == r + z
  {
  }

  /** `a` has more text after its first run of terminators. */
  lemma AppendInnerRun(a: string, b: string)
    requires |a| > 0 && IsPunct(a[|a| - 1])
    requires NextPlain(a, PlainRun(a)) < |a|
    ensures var k, q := PlainRun(a), NextPlain(a, PlainRun(a));
      && GreetingParts(a) == KeepSpoken([a[..k]]) + GreetingParts(a[q..])
      && GreetingParts(a + b) == KeepSpoken([a[..k]]) + GreetingParts(a[q..] + b)
  {
    var t := a + b;
    var k := PlainRun(a);
    var q := NextPlain(a, k);
    assert PlainRun(t) == k by { PlainRunUnique(t, k); }
    assert NextPlain(t, k) == q by { NextPlainUnique(t, k, q); }
    SliceAppend(a, b, k);
    SliceAppend(a, b, q);
    SplitStep(t, k, q);
    SplitStep(a, k, q);
  }

  /** The first run of terminators of `a` is its last. */
  lemma AppendFinalRun(a: string, b: string)
    requires |a| > 0 && IsPunct(a[|a| - 1])
    requires NextPlain(a, PlainRun(a)) == |a|
    ensures GreetingParts(a + b) == GreetingParts(a) + GreetingParts(b)
  {
    var head := KeepSpoken([a[..PlainRun(a)]]);
    assert GreetingParts(a) == head by { FinalRunAlone(a); }
    assert GreetingParts(a + b) == head + GreetingParts(b) by { FinalRunJoined(a, b); }
  }

  lemma FinalRunAlone(a: string)
    requires |a| > 0 && IsPunct(a[|a| - 1])
    requires NextPlain(a, PlainRun(a)) == |a|
    ensures GreetingParts(a) == KeepSpoken([a[..PlainRun(a)]]) + []
  {
    SplitStep(a, PlainRun(a), |a|);
    assert a[|a|..] == "";
    SplitEmpty();
  }

  lemma FinalRunJoined(a: string, b: string)
    requires |a| > 0 && IsPunct(a[|a| - 1])
    requires NextPlain(a, PlainRun(a)) == |a|
    ensures GreetingParts(a + b) == KeepSpoken([a[..PlainRun(a)]]) + GreetingParts(b)
  {
    var t := a + b;
    var k := PlainRun(a);
    assert GreetingParts(t) == KeepSpoken([t[..k]]) + GreetingParts(t[|a|..]) by {
      assert PlainRun(t) == k by { PlainRunUnique(t, k); }
      assert |a| <= NextPlain(t, k) by { NextPlainBeyond(t, k, |a|); }
      SplitStepAt(t, k, |a|);
    }
    assert t[..k] == a[..k] && t[|a|..] == b by {
      SliceAppend(a, b, k);
      SliceAppend(a, b, |a|);
      assert a[|a|..] == "";
    }
  }

  /** Skipping part of the first run of terminators does not change the split. */
  lemma SplitStepAt(t: string, k: nat, m: nat)
    requires k == PlainRun(t) < m <= NextPlain(t, k)
    ensures GreetingParts(t) == KeepSpoken([t[..k]]) + GreetingParts(t[m..])
  {
    var q := NextPlain(t, k);
    SplitStep(t, k, q);
    var u := t[m..];
    assert NextPlain(u, 0) == q - m by { NextPlainUnique(u, 0, q - m); }
    assert u[q - m..] == t[q..];
    SkipLeadingTerminators(u);
  }

  /** Every position up to `m` lies inside the terminator run starting at `i`. */
  lemma {:induction false} NextPlainBeyond(t: string, i: nat, m: nat)
    requires i <= m <= |t|
    requires forall j :: i <= j < m ==> IsPunct(t[j])
    ensures m <= NextPlain(t, i)
    decreases m - i
  {
    if i < m {
      NextPlainBeyond(t, i + 1, m);
    }
  }

  /** A part, split again, is itself. */
  lemma SpokenPartAlone(p: string)
    requires SpokenPart(p)
    ensures GreetingParts(p) == [p]
  {
    var n := |p| - 1;
    var body := p[..n];
    PlainRunUnique(p, n);
    NextPlainUnique(p, n, |p|);
    SplitEmpty();
    assert p[|p|..] == "";
    assert SplitTerminators(p) == [body] + [""];
    TrimTrimmed(body);
    assert body + "." == p;
    KeepAppend([body], [""]);
  }

  /** Parts spoken back to back are split into the same parts. */
  lemma {:induction false} SpokenPartsRoundTrip(parts: seq<string>)
    requires forall p <- parts :: SpokenPart(p)
    ensures GreetingParts(Concat(parts)) == parts
  {
    if |parts| == 0 {
      SplitEmpty();
    } else {
      var p := parts[0];
      assert SpokenPart(p);
      SpokenPartsRoundTrip(parts[1..]);
      SpokenPartAlone(p);
      GreetingPartsAppend(p, Concat(parts[1..]));
      assert [p] + parts[1..] == parts;
    }
  }

  /** Splitting the concatenated parts of a greeting gives back the same parts, in the same order. */
  lemma GreetingPartsRoundTrip(g: string)
    ensures GreetingParts(Concat(GreetingParts(g))) == GreetingParts(g)
  {
    GreetingPartsShape(g);
    SpokenPartsRoundTrip(GreetingParts(g));
  }
}

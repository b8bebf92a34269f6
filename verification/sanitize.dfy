/**
  The role-label stripping shared by both reply sanitisers of the call
  scenarios, and the one-sentence sanitiser.

  Both sanitisers first delete, on every line, the text from an echoed role label
  ("Пользователь:", "Ассистент:", "User:", "Assistant:", any letter case) to the
  end of that line: four global, multi-line, case-insensitive regular-expression
  replacements applied one after the other. The one-sentence variant then keeps
  the text before the first '.', '!' or '?'; the two-sentence variant (module
  TwoSentence) keeps the first two `[^.!?]+[.!?]+` matches when there are more
  than two.
 */
module Sanitize {
  import opened Text

  // ---------------------------------------------------------------------
  // Role labels
  // ---------------------------------------------------------------------

  /** The labels removed, in the order the four replacements run. */
  const RoleLabels: seq<string> := ["Пользователь:", "Ассистент:", "User:", "Assistant:"]

  /** A label starts with a letter, contains no line terminator, no sentence terminator and no space. */
  predicate WellFormedLabel(lbl: string) {
    && |lbl| > 0
    && forall m :: 0 <= m < |lbl| ==> !IsLineTerminator(lbl[m]) && !IsPunct(lbl[m]) && !IsSpace(lbl[m])
  }

  lemma RoleLabelsWellFormed()
    ensures forall k :: 0 <= k < |RoleLabels| ==> WellFormedLabel(RoleLabels[k])
  {
  }

  /** `label` occurs at position `i` of `t`, letter case ignored (the regular expressions' `i` flag). */
  predicate LabelAt(t: string, lbl: string, i: nat) {
    i + |lbl| <= |t| && forall m :: 0 <= m < |lbl| ==> Lower(t[i + m]) == Lower(lbl[m])
  }

  predicate LabelFree(t: string, lbl: string) {
    forall j: nat :: j <= |t| ==> !LabelAt(t, lbl, j)
  }

  /** No role label occurs anywhere in `t`. */
  predicate RoleLabelFree(t: string) {
    forall k :: 0 <= k < |RoleLabels| ==> LabelFree(t, RoleLabels[k])
  }

  /** Position of the first line terminator of `t` at or after `i`, or `|t|`. */
  function NextTerminator(t: string, i: nat): (k: nat)
    requires i <= |t|
    ensures i <= k <= |t| && (k == |t| || IsLineTerminator(t[k]))
    ensures forall m :: i <= m < k ==> !IsLineTerminator(t[m])
    decreases |t| - i
  {
    if i == |t| || IsLineTerminator(t[i]) then i else NextTerminator(t, i + 1)
  }

  /** Position of the first line terminator of `t`, or `|t|`: where a `.*$` match stops. */
  function LineEnd(t: string): (k: nat)
    ensures k <= |t| && (k == |t| || IsLineTerminator(t[k]))
    ensures forall m :: 0 <= m < k ==> !IsLineTerminator(t[m])
  {
    NextTerminator(t, 0)
  }

  /** One `replace(/label.*$/gim, '')` pass: scanning left to right, a label occurrence is deleted together with the rest of its line. */
  function RemoveLabel(t: string, lbl: string): (r: string)
    requires WellFormedLabel(lbl)
    ensures |r| <= |t|
    decreases |t|
  {
    if |t| == 0 then ""
    else if LabelAt(t, lbl, 0) then
      assert Lower(t[0]) == Lower(lbl[0]);
      RemoveLabel(t[LineEnd(t)..], lbl)
    else [t[0]] + RemoveLabel(t[1..], lbl)
  }

  /** The four replacements of `cleanResponse`, in source order. */
  function StripLabels(t: string): (r: string)
    ensures |r| <= |t|
  {
    RoleLabelsWellFormed();
    RemoveLabel(RemoveLabel(RemoveLabel(RemoveLabel(t, RoleLabels[0]), RoleLabels[1]), RoleLabels[2]), RoleLabels[3])
  }

  // ---------------------------------------------------------------------
  // RemoveLabel works line by line
  // ---------------------------------------------------------------------

  /** On a single line, a pass keeps exactly the text before the first label occurrence. */
  lemma {:induction false} RemoveLabelOnLine(t: string, lbl: string, k: nat)
    requires WellFormedLabel(lbl)
    requires forall m :: 0 <= m < |t| ==> !IsLineTerminator(t[m])
    requires k <= |t| && (k == |t| || LabelAt(t, lbl, k))
    requires forall j: nat :: j < k ==> !LabelAt(t, lbl, j)
    ensures RemoveLabel(t, lbl) == t[..k]
    decreases k
  {
    if |t| == 0 {
    } else if k == 0 {
      assert LineEnd(t) == |t|;
    } else {
      assert !LabelAt(t, lbl, 0);
      var u := t[1..];
      forall j: nat | j < k - 1
        ensures !LabelAt(u, lbl, j)
      {
        if LabelAt(u, lbl, j) {
          forall m | 0 <= m < |lbl|
            ensures Lower(t[j + 1 + m]) == Lower(lbl[m])
          {
            assert u[j + m] == t[j + 1 + m];
          }
          assert LabelAt(t, lbl, j + 1);
        }
      }
      if k < |t| {
        forall m | 0 <= m < |lbl|
          ensures Lower(u[k - 1 + m]) == Lower(lbl[m])
        {
          assert u[k - 1 + m] == t[k + m];
        }
        assert LabelAt(u, lbl, k - 1);
      }
      RemoveLabelOnLine(u, lbl, k - 1);
      assert t[..k] == [t[0]] + u[..k - 1];
    }
  }

  /** The line ending of `line + [c] + rest` is the terminator `c`. */
  lemma LineEndAtTerminator(line: string, c: char, rest: string)
    requires forall m :: 0 <= m < |line| ==> !IsLineTerminator(line[m])
    requires IsLineTerminator(c)
    ensures LineEnd(line + [c] + rest) == |line|
    ensures LineEnd(line) == |line|
  {
    var t := line + [c] + rest;
    var e := LineEnd(t);
    assert t[|line|] == c;
  }

  /** An occurrence at the start of `line + [c] + rest` lies inside `line`. */
  lemma LabelAtStartWithinLine(line: string, c: char, rest: string, lbl: string)
    requires WellFormedLabel(lbl) && IsLineTerminator(c)
    ensures LabelAt(line + [c] + rest, lbl, 0) ==> LabelAt(line, lbl, 0)
  {
    var t := line + [c] + rest;
    if |lbl| > |line| {
      assert t[|line|] == c;
      assert Lower(t[|line|]) != Lower(lbl[|line|]);
    } else {
      forall m | 0 <= m < |lbl|
        ensures t[m] == line[m]
      {
      }
    }
  }

  /** A pass over text that starts with a terminator keeps the terminator. */
  lemma RemoveLabelAtTerminator(c: char, rest: string, lbl: string)
    requires WellFormedLabel(lbl) && IsLineTerminator(c)
    ensures RemoveLabel([c] + rest, lbl) == [c] + RemoveLabel(rest, lbl)
  {
    var t := [c] + rest;
    assert Lower(t[0]) != Lower(lbl[0]);
    assert t[1..] == rest;
  }

  lemma LinesAtLabel(line: string, c: char, rest: string, lbl: string)
    requires WellFormedLabel(lbl) && |line| > 0
    requires forall m :: 0 <= m < |line| ==> !IsLineTerminator(line[m])
    requires IsLineTerminator(c)
    requires LabelAt(line + [c] + rest, lbl, 0)
    ensures RemoveLabel(line + [c] + rest, lbl) == RemoveLabel(line, lbl) + [c] + RemoveLabel(rest, lbl)
  {
    var t := line + [c] + rest;
    var r := RemoveLabel(rest, lbl);
    LabelAtStartWithinLine(line, c, rest, lbl);
    LineEndAtTerminator(line, c, rest);
    calc {
      RemoveLabel(t, lbl);
    == { RemoveLabelAtLabel(t, lbl); }
      RemoveLabel(t[|line|..], lbl);
    == { ConsTail(line, c, rest); }
      RemoveLabel([c] + rest, lbl);
    == { RemoveLabelAtTerminator(c, rest, lbl); }
      [c] + r;
    == { EmptyPrefix([c] + r); AppendAssoc("", [c], r); }
      RemoveLabel(line[|line|..], lbl) + [c] + r;
    == { RemoveLabelAtLabel(line, lbl); }
      RemoveLabel(line, lbl) + [c] + r;
    }
  }

  /** Where a label starts, a pass drops the rest of the line. */
  lemma RemoveLabelAtLabel(t: string, lbl: string)
    requires WellFormedLabel(lbl) && LabelAt(t, lbl, 0)
    ensures RemoveLabel(t, lbl) == RemoveLabel(t[LineEnd(t)..], lbl)
  {
  }

  lemma ConsTail(line: string, c: char, rest: string)
    ensures (line + [c] + rest)[|line|..] == [c] + rest
  {
  }

  lemma EmptyPrefix(x: string)
    ensures "" + x == x
  {
  }

  /** Where no label starts, a pass keeps the first character and goes on with the rest. */
  lemma RemoveLabelPlain(t: string, lbl: string)
    requires WellFormedLabel(lbl) && |t| > 0 && !LabelAt(t, lbl, 0)
    ensures RemoveLabel(t, lbl) == [t[0]] + RemoveLabel(t[1..], lbl)
  {
  }

  /** No label starts a line where none starts the text the line begins. */
  lemma NoLabelAtLineStart(line: string, t: string, lbl: string)
    requires |line| <= |t| && t[..|line|] == line && !LabelAt(t, lbl, 0)
    ensures !LabelAt(line, lbl, 0)
  {
    if |lbl| <= |line| {
      assert line[0..|lbl|] == t[0..|lbl|];
      NoLabelCopy(line, 0, t, 0, lbl);
    }
  }

  lemma ConsLine(line: string, c: char, rest: string)
    requires |line| > 0
    ensures var t := line + [c] + rest;
      t[..|line|] == line && t[0] == line[0] && t[1..] == line[1..] + [c] + rest
  {
  }

  lemma LinesPlainStep(line: string, c: char, rest: string, lbl: string)
    requires WellFormedLabel(lbl) && |line| > 0
    requires !LabelAt(line + [c] + rest, lbl, 0)
    requires RemoveLabel(line[1..] + [c] + rest, lbl) == RemoveLabel(line[1..], lbl) + [c] + RemoveLabel(rest, lbl)
    ensures RemoveLabel(line + [c] + rest, lbl) == RemoveLabel(line, lbl) + [c] + RemoveLabel(rest, lbl)
  {
    var t := line + [c] + rest;
    ConsLine(line, c, rest);
    NoLabelAtLineStart(line, t, lbl);
    var l0, l1, r := [line[0]], RemoveLabel(line[1..], lbl), RemoveLabel(rest, lbl);
    calc {
      RemoveLabel(t, lbl);
    == { RemoveLabelPlain(t, lbl); }
      l0 + RemoveLabel(line[1..] + [c] + rest, lbl);
    ==
      l0 + (l1 + [c] + r);
    == { AppendAssoc(l0, l1 + [c], r); }
      l0 + (l1 + [c]) + r;
    == { AppendAssoc(l0, l1, [c]); }
      l0 + l1 + [c] + r;
    == { RemoveLabelPlain(line, lbl); }
      RemoveLabel(line, lbl) + [c] + r;
    }
  }

  /** A label never straddles a line terminator, so a pass works on each line separately. */
  lemma {:induction false} RemoveLabelLines(line: string, c: char, rest: string, lbl: string)
    requires WellFormedLabel(lbl)
    requires forall m :: 0 <= m < |line| ==> !IsLineTerminator(line[m])
    requires IsLineTerminator(c)
    ensures RemoveLabel(line + [c] + rest, lbl) == RemoveLabel(line, lbl) + [c] + RemoveLabel(rest, lbl)
    decreases |line|
  {
    if |line| == 0 {
      assert line + [c] + rest == [c] + rest;
      RemoveLabelAtTerminator(c, rest, lbl);
    } else if LabelAt(line + [c] + rest, lbl, 0) {
      LinesAtLabel(line, c, rest, lbl);
    } else {
      RemoveLabelLines(line[1..], c, rest, lbl);
      LinesPlainStep(line, c, rest, lbl);
    }
  }

  // ---------------------------------------------------------------------
  // Label-free text
  // ---------------------------------------------------------------------

  /** A window that copies a window without the label has no label either. */
  lemma NoLabelCopy(s: string, j: nat, t: string, i: nat, lbl: string)
    requires j + |lbl| <= |s| && i + |lbl| <= |t|
    requires s[j..j + |lbl|] == t[i..i + |lbl|]
    requires !LabelAt(t, lbl, i)
    ensures !LabelAt(s, lbl, j)
  {
    var m :| 0 <= m < |lbl| && Lower(t[i + m]) != Lower(lbl[m]);
    assert s[j + m] == s[j..j + |lbl|][m] == t[i..i + |lbl|][m];
  }

  /** Every window of a slice is a window of the whole text. */
  lemma LabelFreeSlice(t: string, lbl: string, a: nat, b: nat)
    requires a <= b <= |t| && LabelFree(t, lbl)
    ensures LabelFree(t[a..b], lbl)
  {
    var s := t[a..b];
    forall j: nat | j <= |s|
      ensures !LabelAt(s, lbl, j)
    {
      if j + |lbl| <= |s| {
        NoLabelCopy(s, j, t, a + j, lbl);
      }
    }
  }

  /** `c` cannot be part of any occurrence of `label`. */
  predicate Foreign(c: char, lbl: string) {
    forall m :: 0 <= m < |lbl| ==> Lower(c) != Lower(lbl[m])
  }

  /** Gluing label-free texts with a non-empty separator of characters foreign to the label gives a label-free text. */
  lemma LabelFreeJoin(x: string, sep: string, y: string, lbl: string)
    requires |lbl| > 0 && LabelFree(x, lbl) && LabelFree(y, lbl) && |sep| > 0
    requires forall k :: 0 <= k < |sep| ==> Foreign(sep[k], lbl)
    ensures LabelFree(x + sep + y, lbl)
  {
    var t := x + sep + y;
    forall j: nat | j <= |t|
      ensures !LabelAt(t, lbl, j)
    {
      var n := |lbl|;
      if j + n > |t| {
      } else if j + n <= |x| {
        NoLabelCopy(t, j, x, j, lbl);
      } else if j >= |x| + |sep| {
        NoLabelCopy(t, j, y, j - |x| - |sep|, lbl);
      } else {
        // the window covers a separator character, which no label character matches
        var p := if j < |x| then |x| else j;
        assert t[p] == sep[p - |x|];
        assert Lower(t[j + (p - j)]) != Lower(lbl[p - j]);
      }
    }
  }

  /** Position of the first occurrence of `label` in `t` at or after `from`, or `|t|`. */
  function FirstLabel(t: string, lbl: string, from: nat): (k: nat)
    requires |lbl| > 0 && from <= |t|
    ensures from <= k <= |t|
    ensures k == |t| || LabelAt(t, lbl, k)
    ensures forall j: nat :: from <= j < k ==> !LabelAt(t, lbl, j)
    decreases |t| - from
  {
    if from == |t| || LabelAt(t, lbl, from) then from else FirstLabel(t, lbl, from + 1)
  }

  /** A terminator is foreign to every well-formed label. */
  lemma TerminatorForeign(c: char, lbl: string)
    requires IsLineTerminator(c) && WellFormedLabel(lbl)
    ensures Foreign(c, lbl)
  {
  }

  /** A pass over text with more than one line is the pass over its first line, the terminator, and the pass over the rest. */
  lemma RemoveLabelFirstLine(t: string, lbl: string)
    requires WellFormedLabel(lbl) && LineEnd(t) < |t|
    ensures RemoveLabel(t, lbl) == RemoveLabel(t[..LineEnd(t)], lbl) + [t[LineEnd(t)]] + RemoveLabel(t[LineEnd(t) + 1..], lbl)
  {
    var e := LineEnd(t);
    SplitAround(t, e);
    RemoveLabelLines(t[..e], t[e], t[e + 1..], lbl);
  }

  /** On its first line, a pass keeps the text before the first occurrence of the label. */
  lemma RemoveLabelFirstLineValue(t: string, lbl: string)
    requires WellFormedLabel(lbl)
    ensures var line := t[..LineEnd(t)];
      RemoveLabel(line, lbl) == line[..FirstLabel(line, lbl, 0)]
  {
    var line := t[..LineEnd(t)];
    RemoveLabelOnLine(line, lbl, FirstLabel(line, lbl, 0));
  }

  /** The first line after a pass holds no occurrence of the label. */
  lemma RemoveLabelFirstLineFree(t: string, lbl: string)
    requires WellFormedLabel(lbl)
    ensures LabelFree(RemoveLabel(t[..LineEnd(t)], lbl), lbl)
  {
    var line := t[..LineEnd(t)];
    var k := FirstLabel(line, lbl, 0);
    RemoveLabelFirstLineValue(t, lbl);
    forall j: nat | j <= k
      ensures !LabelAt(line[..k], lbl, j)
    {
      if j + |lbl| <= k {
        assert line[..k][j..j + |lbl|] == line[j..j + |lbl|];
        NoLabelCopy(line[..k], j, line, j, lbl);
      }
    }
  }

  /** After a pass, the label it removes occurs nowhere. */
  lemma {:induction false} RemoveLabelLabelFree(t: string, lbl: string)
    requires WellFormedLabel(lbl)
    ensures LabelFree(RemoveLabel(t, lbl), lbl)
    decreases |t|
  {
    var e := LineEnd(t);
    RemoveLabelFirstLineFree(t, lbl);
    if e == |t| {
      assert t[..e] == t;
    } else {
      var rest := t[e + 1..];
      RemoveLabelFirstLine(t, lbl);
      RemoveLabelLabelFree(rest, lbl);
      TerminatorForeign(t[e], lbl);
      LabelFreeJoin(RemoveLabel(t[..e], lbl), [t[e]], RemoveLabel(rest, lbl), lbl);
    }
  }

  /** A pass over the first line never creates an occurrence of another label. */
  lemma RemoveLabelFirstLineKeeps(t: string, removed: string, lbl: string)
    requires WellFormedLabel(removed) && LabelFree(t, lbl)
    ensures LabelFree(RemoveLabel(t[..LineEnd(t)], removed), lbl)
  {
    var line := t[..LineEnd(t)];
    var k := FirstLabel(line, removed, 0);
    RemoveLabelFirstLineValue(t, removed);
    assert line[..k] == t[..k];
    LabelFreeSlice(t, lbl, 0, k);
  }

  /** A pass never creates an occurrence of another label. */
  lemma {:induction false} RemoveLabelKeepsLabelFree(t: string, removed: string, lbl: string)
    requires WellFormedLabel(removed) && WellFormedLabel(lbl)
    requires LabelFree(t, lbl)
    ensures LabelFree(RemoveLabel(t, removed), lbl)
    decreases |t|
  {
    var e := LineEnd(t);
    RemoveLabelFirstLineKeeps(t, removed, lbl);
    if e == |t| {
      assert t[..e] == t;
    } else {
      var rest := t[e + 1..];
      RemoveLabelFirstLine(t, removed);
      LabelFreeSlice(t, lbl, e + 1, |t|);
      assert t[e + 1..|t|] == rest;
      RemoveLabelKeepsLabelFree(rest, removed, lbl);
      TerminatorForeign(t[e], lbl);
      LabelFreeJoin(RemoveLabel(t[..e], removed), [t[e]], RemoveLabel(rest, removed), lbl);
    }
  }

  /** A pass leaves text without its label unchanged. */
  lemma {:induction false} RemoveLabelIdentity(t: string, lbl: string)
    requires WellFormedLabel(lbl) && LabelFree(t, lbl)
    ensures RemoveLabel(t, lbl) == t
    decreases |t|
  {
    if |t| > 0 {
      assert !LabelAt(t, lbl, 0);
      LabelFreeSlice(t, lbl, 1, |t|);
      assert t[1..|t|] == t[1..];
      RemoveLabelIdentity(t[1..], lbl);
      assert t == [t[0]] + t[1..];
    }
  }

  /** After the four replacements no role label is left, in any letter case. */
  lemma StripLabelsRoleLabelFree(t: string)
    ensures RoleLabelFree(StripLabels(t))
  {
    RoleLabelsWellFormed();
    var L0, L1, L2, L3 := RoleLabels[0], RoleLabels[1], RoleLabels[2], RoleLabels[3];
    var t1 := RemoveLabel(t, L0);
    var t2 := RemoveLabel(t1, L1);
    var t3 := RemoveLabel(t2, L2);
    var t4 := RemoveLabel(t3, L3);
    RemoveLabelLabelFree(t, L0);
    RemoveLabelLabelFree(t1, L1);
    RemoveLabelKeepsLabelFree(t1, L1, L0);
    RemoveLabelLabelFree(t2, L2);
    RemoveLabelKeepsLabelFree(t2, L2, L0);
    RemoveLabelKeepsLabelFree(t2, L2, L1);
    RemoveLabelLabelFree(t3, L3);
    RemoveLabelKeepsLabelFree(t3, L3, L0);
    RemoveLabelKeepsLabelFree(t3, L3, L1);
    RemoveLabelKeepsLabelFree(t3, L3, L2);
    assert t4 == StripLabels(t);
  }

  /** Text without role labels passes the four replacements unchanged. */
  lemma StripLabelsIdentity(t: string)
    requires RoleLabelFree(t)
    ensures StripLabels(t) == t
  {
    RoleLabelsWellFormed();
    RemoveLabelIdentity(t, RoleLabels[0]);
    RemoveLabelIdentity(t, RoleLabels[1]);
    RemoveLabelIdentity(t, RoleLabels[2]);
    RemoveLabelIdentity(t, RoleLabels[3]);
  }

  lemma RoleLabelFreeSlice(t: string, a: nat, b: nat)
    requires a <= b <= |t| && RoleLabelFree(t)
    ensures RoleLabelFree(t[a..b])
  {
    forall k | 0 <= k < |RoleLabels|
      ensures LabelFree(t[a..b], RoleLabels[k])
    {
      LabelFreeSlice(t, RoleLabels[k], a, b);
    }
  }

  /** Joining role-label-free texts with spaces or sentence terminators keeps them role-label-free. */
  lemma RoleLabelFreeJoin(x: string, sep: string, y: string)
    requires RoleLabelFree(x) && RoleLabelFree(y) && |sep| > 0
    requires forall k :: 0 <= k < |sep| ==> IsPunct(sep[k]) || IsSpace(sep[k])
    ensures RoleLabelFree(x + sep + y)
  {
    RoleLabelsWellFormed();
    forall k | 0 <= k < |RoleLabels|
      ensures LabelFree(x + sep + y, RoleLabels[k])
    {
      LabelFreeJoin(x, sep, y, RoleLabels[k]);
    }
  }

  // ---------------------------------------------------------------------
  // Runs of sentence terminators
  // ---------------------------------------------------------------------

  predicate AllPunct(s: string) {
    forall k :: 0 <= k < |s| ==> IsPunct(s[k])
  }

  /** Position of the first '.', '!' or '?' of `t` at or after `i`, or `|t|`. */
  function NextPunct(t: string, i: nat): (k: nat)
    requires i <= |t|
    ensures i <= k <= |t| && (k == |t| || IsPunct(t[k]))
    ensures forall j :: i <= j < k ==> !IsPunct(t[j])
    decreases |t| - i
  {
    if i == |t| || IsPunct(t[i]) then i else NextPunct(t, i + 1)
  }

  /** Position of the first character of `t` at or after `i` that is not a '.', '!' or '?', or `|t|`. */
  function NextPlain(t: string, i: nat): (k: nat)
    requires i <= |t|
    ensures i <= k <= |t| && (k == |t| || !IsPunct(t[k]))
    ensures forall j :: i <= j < k ==> IsPunct(t[j])
    decreases |t| - i
  {
    if i == |t| || !IsPunct(t[i]) then i else NextPlain(t, i + 1)
  }

  /** Length of the longest prefix without '.', '!' or '?'. */
  function PlainRun(t: string): (k: nat)
    ensures k <= |t| && (k == |t| || IsPunct(t[k]))
    ensures forall j :: 0 <= j < k ==> !IsPunct(t[j])
  {
    NextPunct(t, 0)
  }

  function Concat(ss: seq<string>): string {
    if |ss| == 0 then "" else ss[0] + Concat(ss[1..])
  }

  // ---------------------------------------------------------------------
  // One-sentence sanitiser (elevenlabs, assistant)
  // ---------------------------------------------------------------------

  const OneSentenceFallback: string := "Когда вам удобно?"

  /** `text.split(/[.!?]/)[0]`: the text before the first sentence terminator. */
  function FirstSegment(t: string): (s: string)
  {
    t[..PlainRun(t)]
  }

  /** The sentence-cutting step of the one-sentence `cleanResponse`: a first segment longer than three UTF-16 units, trimmed, becomes the whole reply with a '.' added. */
  function CutFirstSentence(t: string): (r: string)
  {
    var seg := Trim(FirstSegment(t));
    if Utf16Length(seg) > 3 then seg + "." else t
  }

  /** `text.trim() || fallback`. */
  function TrimOr(t: string, fallback: string): (r: string)
  {
    var out := Trim(t);
    if out == "" then fallback else out
  }

  /** `cleanResponse` of the elevenlabs and assistant scenarios. */
  function CleanOneSentence(raw: string): (r: string)
    ensures |r| > 0
  {
    TrimOr(CutFirstSentence(StripLabels(raw)), OneSentenceFallback)
  }

  /** A text without ':' contains no role label, since every role label ends with one. */
  lemma NoColonRoleLabelFree(t: string)
    requires ':' !in t
    ensures RoleLabelFree(t)
  {
    forall k, j: nat | 0 <= k < |RoleLabels| && j <= |t|
      ensures !LabelAt(t, RoleLabels[k], j)
    {
      var lbl := RoleLabels[k];
      var m := |lbl| - 1;
      assert lbl[m] == ':';
      if j + |lbl| <= |t| {
        assert t[j + m] in t;
        assert Lower(t[j + m]) != Lower(lbl[m]);
      }
    }
  }

  /** `trim` keeps a text free of role labels. */
  lemma TrimRoleLabelFree(t: string)
    requires RoleLabelFree(t)
    ensures RoleLabelFree(Trim(t))
  {
    var out := Trim(t);
    var i := TrimOffset(t);
    RoleLabelFreeSlice(t, i, i + |out|);
  }

  lemma TrimOrRoleLabelFree(t: string, fallback: string)
    requires RoleLabelFree(t) && RoleLabelFree(fallback)
    ensures RoleLabelFree(TrimOr(t, fallback))
  {
    TrimRoleLabelFree(t);
  }

  /** Cutting label-free text to its first sentence keeps it label-free. */
  lemma CutFirstSentenceRoleLabelFree(t: string)
    requires RoleLabelFree(t)
    ensures RoleLabelFree(CutFirstSentence(t))
  {
    var f := FirstSegment(t);
    RoleLabelFreeSlice(t, 0, |f|);
    var seg := Trim(f);
    TrimRoleLabelFree(f);
    if Utf16Length(seg) > 3 {
      NoColonRoleLabelFree("");
      RoleLabelFreeJoin(seg, ".", "");
      assert seg + "." + "" == seg + ".";
    }
  }

  /** The reply never contains a role label, whichever branch produced it. */
  lemma CleanOneSentenceRoleLabelFree(raw: string)
    ensures RoleLabelFree(CleanOneSentence(raw))
  {
    var t := StripLabels(raw);
    StripLabelsRoleLabelFree(raw);
    CutFirstSentenceRoleLabelFree(t);
    NoColonRoleLabelFree(OneSentenceFallback);
    TrimOrRoleLabelFree(CutFirstSentence(t), OneSentenceFallback);
  }

  /** A long first segment becomes the whole reply: a '.' after a trimmed fragment of the text without terminators. */
  lemma CutFirstSentenceLong(t: string)
    requires Utf16Length(Trim(FirstSegment(t))) > 3
    ensures var r := TrimOr(CutFirstSentence(t), OneSentenceFallback);
      && |r| > 1 && r[|r| - 1] == '.'
      && NoPunct(r[..|r| - 1]) && Utf16Length(r[..|r| - 1]) > 3
      && Occurs(r[..|r| - 1], t)
  {
    var f := FirstSegment(t);
    var seg := Trim(f);
    assert |seg| > 0 && NoPunct(seg);
    assert Trim(seg + ".") == seg + "." by { TrimTrimmed(seg + "."); }
    var r := TrimOr(CutFirstSentence(t), OneSentenceFallback);
    assert r == seg + ".";
    assert r[..|r| - 1] == seg;
    assert Occurs(seg, t) by {
      var i := TrimOffset(f);
      assert t == t[..i] + seg + t[i + |seg|..];
      OccursInfix(t[..i], seg, t[i + |seg|..]);
    }
  }

  /** When the first segment is long enough, the reply is that one sentence: a label-free fragment of the model's text followed by a single '.'. */
  lemma CleanOneSentenceLong(raw: string)
    requires Utf16Length(Trim(FirstSegment(StripLabels(raw)))) > 3
    ensures CleanOneSentence(raw) == Trim(FirstSegment(StripLabels(raw))) + "."
    ensures var r := CleanOneSentence(raw);
      && |r| > 1 && r[|r| - 1] == '.'
      && NoPunct(r[..|r| - 1]) && Utf16Length(r[..|r| - 1]) > 3
      && Occurs(r[..|r| - 1], StripLabels(raw))
  {
    CutFirstSentenceLong(StripLabels(raw));
  }

  /** When the first segment is three UTF-16 units or shorter, the reply is the whole stripped text, trimmed, unless that is blank. */
  lemma CleanOneSentenceShort(raw: string)
    requires Utf16Length(Trim(FirstSegment(StripLabels(raw)))) <= 3 && !AllSpace(StripLabels(raw))
    ensures CleanOneSentence(raw) == Trim(StripLabels(raw))
  {
    TrimEmptyIffAllSpace(StripLabels(raw));
  }

  /**
    The whole one-sentence `cleanResponse`, stated at the first terminator `k`
    of the stripped text: a trimmed piece before `k` longer than three UTF-16
    units plus one '.'; otherwise the stripped text trimmed; the fallback when
    that is blank.
   */
  lemma CleanOneSentenceAt(raw: string, k: nat)
    requires k <= |StripLabels(raw)|
    requires k == |StripLabels(raw)| || IsPunct(StripLabels(raw)[k])
    requires forall j :: 0 <= j < k ==> !IsPunct(StripLabels(raw)[j])
    ensures var t := StripLabels(raw);
      Utf16Length(Trim(t[..k])) > 3 ==> CleanOneSentence(raw) == Trim(t[..k]) + "."
    ensures var t := StripLabels(raw);
      Utf16Length(Trim(t[..k])) <= 3 && !AllSpace(t) ==> CleanOneSentence(raw) == Trim(t)
    ensures var t := StripLabels(raw);
      Utf16Length(Trim(t[..k])) <= 3 && AllSpace(t) ==> CleanOneSentence(raw) == OneSentenceFallback
  {
    var t := StripLabels(raw);
    PlainRunUnique(t, k);
    assert FirstSegment(t) == t[..k];
    if Utf16Length(Trim(t[..k])) > 3 {
      CleanOneSentenceLong(raw);
    } else if !AllSpace(t) {
      CleanOneSentenceShort(raw);
    } else {
      CleanOneSentenceBlank(raw);
    }
  }

  /** The fallback is the reply to an empty or label-only answer. */
  lemma CleanOneSentenceBlank(raw: string)
    requires AllSpace(StripLabels(raw))
    ensures CleanOneSentence(raw) == OneSentenceFallback
  {
    var t := StripLabels(raw);
    var f := FirstSegment(t);
    assert AllSpace(f);
    TrimEmptyIffAllSpace(f);
    TrimEmptyIffAllSpace(t);
  }

  /** The plain run is the only prefix without terminators that is followed by one or by the end. */
  lemma {:induction false} NextPunctUnique(t: string, i: nat, k: nat)
    requires i <= k <= |t| && (k == |t| || IsPunct(t[k]))
    requires forall j :: i <= j < k ==> !IsPunct(t[j])
    ensures NextPunct(t, i) == k
    decreases k - i
  {
    if i < k {
      NextPunctUnique(t, i + 1, k);
    }
  }

  /** The terminator run starting at `i` ends exactly at `k`. */
  lemma {:induction false} NextPlainUnique(t: string, i: nat, k: nat)
    requires i <= k <= |t| && (k == |t| || !IsPunct(t[k]))
    requires forall j :: i <= j < k ==> IsPunct(t[j])
    ensures NextPlain(t, i) == k
    decreases k - i
  {
    if i < k {
      NextPlainUnique(t, i + 1, k);
    }
  }

  lemma PlainRunUnique(t: string, k: nat)
    requires k <= |t| && (k == |t| || IsPunct(t[k]))
    requires forall j :: 0 <= j < k ==> !IsPunct(t[j])
    ensures PlainRun(t) == k
  {
    NextPunctUnique(t, 0, k);
  }

  /** A sentence terminator is not a space, so `trim` never drops one. */
  lemma PunctSurvivesTrim(t: string, p: nat)
    requires p < |t| && IsPunct(t[p])
    ensures TrimOffset(t) <= p < TrimOffset(t) + |Trim(t)|
  {
    var i := TrimOffset(t);
    var r := Trim(t);
    forall k | 0 <= k < i
      ensures !IsPunct(t[k])
    {
      assert t[..i][k] == t[k];
    }
    forall k | i + |r| <= k < |t|
      ensures !IsPunct(t[k])
    {
      assert t[i + |r|..][k - i - |r|] == t[k];
    }
  }

  lemma SameSegmentWithoutPunct(t: string)
    requires PlainRun(t) == |t|
    ensures Trim(FirstSegment(Trim(t))) == Trim(FirstSegment(t))
  {
    var r := Trim(t);
    assert NoPunct(t);
    TrimKeepsNoPunct(t);
    assert r[..|r|] == r;
    PlainRunUnique(r, |r|);
    assert FirstSegment(r) == r;
    assert FirstSegment(t) == t;
    TrimIdempotent(t);
  }

  lemma SameSegmentWithPunct(t: string)
    requires PlainRun(t) < |t|
    ensures Trim(FirstSegment(Trim(t))) == Trim(FirstSegment(t))
  {
    var r := Trim(t);
    var i := TrimOffset(t);
    var p := PlainRun(t);
    PunctSurvivesTrim(t, p);
    forall j | 0 <= j < p - i
      ensures !IsPunct(r[j])
    {
      assert r[j] == t[i + j];
    }
    assert r[p - i] == t[p];
    PlainRunUnique(r, p - i);
    assert FirstSegment(r) == t[i..p];
    assert FirstSegment(t) == t[..p];
    assert t[..p] == t[..i] + t[i..p];
    TrimLeadingSpaces(t[..i], t[i..p]);
  }

  /** Cutting the result again finds the same first segment. */
  lemma CutFirstSentenceSameSegment(t: string)
    ensures Trim(FirstSegment(Trim(t))) == Trim(FirstSegment(t))
  {
    if PlainRun(t) == |t| {
      SameSegmentWithoutPunct(t);
    } else {
      SameSegmentWithPunct(t);
    }
  }

  /** On label-free text, cleaning a cleaned reply changes nothing, unless the reply is the fallback. */
  lemma CutFirstSentenceIdempotent(t: string)
    requires TrimOr(CutFirstSentence(t), OneSentenceFallback) != OneSentenceFallback
    ensures var r := TrimOr(CutFirstSentence(t), OneSentenceFallback);
      TrimOr(CutFirstSentence(r), OneSentenceFallback) == r
  {
    var r := TrimOr(CutFirstSentence(t), OneSentenceFallback);
    var seg := Trim(FirstSegment(t));
    if Utf16Length(seg) > 3 {
      CutFirstSentenceLong(t);
      assert r == seg + ".";
      PlainRunUnique(r, |seg|);
      assert FirstSegment(r) == seg;
      TrimIdempotent(FirstSegment(t));
      assert CutFirstSentence(r) == r;
      TrimTrimmed(r);
    } else {
      assert r == Trim(t);
      CutFirstSentenceSameSegment(t);
      assert CutFirstSentence(r) == r;
      TrimIdempotent(t);
    }
  }

  /** Cleaning is idempotent on every reply except the fallback. */
  lemma CleanOneSentenceIdempotent(raw: string)
    ensures CleanOneSentence(raw) != OneSentenceFallback ==>
              CleanOneSentence(CleanOneSentence(raw)) == CleanOneSentence(raw)
  {
    var r := CleanOneSentence(raw);
    if r != OneSentenceFallback {
      CleanOneSentenceRoleLabelFree(raw);
      StripLabelsIdentity(r);
      CutFirstSentenceIdempotent(StripLabels(raw));
    }
  }

  /** On label-free text, cleaning is the cut followed by `trim` and the fallback. */
  lemma CleanOneSentenceLabelFree(t: string)
    requires RoleLabelFree(t)
    ensures CleanOneSentence(t) == TrimOr(CutFirstSentence(t), OneSentenceFallback)
  {
    StripLabelsIdentity(t);
  }

  /** A question long enough to be kept is turned into a statement. */
  lemma CutQuestion(seg: string)
    requires NoPunct(seg) && Trim(seg) == seg && |seg| > 3
    ensures TrimOr(CutFirstSentence(seg + "?"), OneSentenceFallback) == seg + "."
  {
    var t := seg + "?";
    PlainRunUnique(t, |seg|);
    assert FirstSegment(t) == seg;
    TrimTrimmed(seg + ".");
  }

  lemma FallbackFacts()
    ensures OneSentenceFallback == "Когда вам удобно" + "?"
    ensures NoPunct("Когда вам удобно") && RoleLabelFree(OneSentenceFallback)
    ensures Trim("Когда вам удобно") == "Когда вам удобно"
  {
    NoColonRoleLabelFree(OneSentenceFallback);
    TrimTrimmed("Когда вам удобно");
  }

  /** The fallback itself is not a fixed point: cleaning it again turns its '?' into '.'. */
  lemma CleanOneSentenceFallbackChanges()
    ensures CleanOneSentence(OneSentenceFallback) == "Когда вам удобно" + "."
    ensures CleanOneSentence(OneSentenceFallback) != OneSentenceFallback
  {
    FallbackFacts();
    CleanOneSentenceLabelFree(OneSentenceFallback);
    CutQuestion("Когда вам удобно");
  }
}

/** What the normalisation leaves of each run of whitespace between two visible characters. */
module HtmlGaps {
  import opened HtmlText
  import opened HtmlNormalForm

  function Rewritten(s: string): string {
    CapNewlines(SqueezeBlanks(TrimLines(s)))
  }

  /** Spaces and tabs, at least one of them. */
  predicate BlankRun(w: string) {
    w != "" && forall i :: 0 <= i < |w| ==> w[i] == ' ' || w[i] == '\t'
  }

  /** Newlines and spaces around them. */
  predicate BreakRun(w: string) {
    '\n' in w && forall i :: 0 <= i < |w| ==> w[i] == ' ' || w[i] == '\n'
  }

  lemma {:induction false} AllBlanksLead(w: string)
    requires forall i :: 0 <= i < |w| ==> IsBlank(w[i])
    ensures LeadingBlanks(w) == |w|
  {
    if w != "" {
      AllBlanksLead(w[1..]);
    }
  }

  lemma BlankRunIsRewritten(w: string)
    requires BlankRun(w)
    ensures Rewritten(w) == " "
  {
    TrimLinesIdle(w);
    AllBlanksLead(w);
    assert w[|w|..] == "";
    assert SqueezeBlanks("") == "";
    assert SqueezeBlanks(w) == " ";
    CapNewlinesIdle(" ");
  }

  /** The newlines of a text. */
  function Breaks(s: string): string {
    if s == "" then "" else (if s[0] == '\n' then "\n" else "") + Breaks(s[1..])
  }

  lemma {:induction false} BreaksAfterSpaces(s: string)
    ensures Breaks(s[LeadingSpaces(s)..]) == Breaks(s)
  {
    if s != "" && s[0] == ' ' {
      BreaksAfterSpaces(s[1..]);
      assert s[LeadingSpaces(s)..] == s[1..][LeadingSpaces(s[1..])..];
    }
  }

  lemma {:induction false} BreaksAreNewlines(s: string)
    ensures forall i :: 0 <= i < |Breaks(s)| ==> Breaks(s)[i] == '\n'
    ensures Breaks(s) == "" <==> '\n' !in s
  {
    if s != "" {
      BreaksAreNewlines(s[1..]);
      assert s == [s[0]] + s[1..];
    }
  }

  predicate SpacesAndBreaks(s: string) {
    forall i :: 0 <= i < |s| ==> s[i] == ' ' || s[i] == '\n'
  }

  lemma BreakInRun(w: string)
    requires '\n' in w && SpacesAndBreaks(w)
    ensures AtBreak(w)
  {
    SpacesAreSpaces(w);
    var i :| 0 <= i < |w| && w[i] == '\n';
    assert i >= LeadingSpaces(w);
  }

  lemma RunAfterBreak(w: string)
    requires AtBreak(w) && SpacesAndBreaks(w)
    ensures SpacesAndBreaks(AfterBreak(w)) && (AfterBreak(w) == "" || '\n' in AfterBreak(w))
  {
    var rest := w[LeadingSpaces(w) + 1..];
    SpacesAreSpaces(rest);
    var tail := AfterBreak(w);
    assert forall i :: 0 <= i < |tail| ==> tail[i] == rest[LeadingSpaces(rest) + i];
    assert forall i :: 0 <= i < |rest| ==> rest[i] == w[LeadingSpaces(w) + 1 + i];
    assert tail != "" ==> tail[0] == '\n';
  }

  lemma BreaksAfterBreak(w: string)
    requires AtBreak(w)
    ensures Breaks(w) == "\n" + Breaks(AfterBreak(w))
  {
    var k := LeadingSpaces(w);
    var rest := w[k + 1..];
    BreaksAfterSpaces(w);
    BreaksAfterSpaces(rest);
    assert w[k..][0] == '\n' && w[k..][1..] == rest;
  }

  lemma {:induction false} TrimmedRunIsItsBreaks(w: string)
    requires SpacesAndBreaks(w) && (w == "" || '\n' in w)
    ensures TrimLines(w) == Breaks(w)
    decreases |w|
  {
    if w != "" {
      BreakInRun(w);
      RunAfterBreak(w);
      BreaksAfterBreak(w);
      BreakHead(w);
      TrimmedRunIsItsBreaks(AfterBreak(w));
    }
  }

  lemma {:induction false} AllNewlinesLead(s: string)
    requires forall i :: 0 <= i < |s| ==> s[i] == '\n'
    ensures LeadingNewlines(s) == |s|
  {
    if s != "" {
      AllNewlinesLead(s[1..]);
    }
  }

  lemma NewlinesAreCapped(s: string)
    requires s != "" && forall i :: 0 <= i < |s| ==> s[i] == '\n'
    ensures CapNewlines(s) == if |s| == 1 then "\n" else "\n\n"
  {
    if |s| >= 3 {
      AllNewlinesLead(s);
      assert s[|s|..] == "" && CapNewlines("") == "";
    } else {
      CapNewlinesIdle(s);
    }
  }

  lemma BreakRunIsRewritten(w: string)
    requires BreakRun(w)
    ensures Rewritten(w) == if |Breaks(w)| == 1 then "\n" else "\n\n"
  {
    TrimmedRunIsItsBreaks(w);
    BreaksAreNewlines(w);
    SqueezeBlanksIdle(Breaks(w));
    NewlinesAreCapped(Breaks(w));
  }

  predicate EndsSolid(s: string) { s != "" && Solid(s[|s| - 1]) }

  predicate StartsSolid(s: string) { s != "" && Solid(s[0]) }

  /** A rewriting leaves solid ends solid. */
  lemma ApplyKeepsEnds(f: Rewriting, s: string)
    ensures EndsSolid(s) ==> EndsSolid(Apply(f, s))
    ensures StartsSolid(s) ==> StartsSolid(Apply(f, s))
  {
    if EndsSolid(s) {
      var k := |s| - 1;
      ApplyOfConcat(f, s[..k], [s[k]]);
      ApplyOfSolid(f, s[k]);
      assert s == s[..k] + [s[k]];
    }
    if StartsSolid(s) {
      ApplyOfConcat(f, [s[0]], s[1..]);
      ApplyOfSolid(f, s[0]);
      assert s == [s[0]] + s[1..];
    }
  }

  lemma ApplyToGap(f: Rewriting, a: string, w: string, b: string)
    requires EndsSolid(a) && StartsSolid(b)
    ensures Apply(f, a + w + b) == Apply(f, a) + Apply(f, w) + Apply(f, b)
    ensures EndsSolid(Apply(f, a)) && StartsSolid(Apply(f, b))
  {
    ApplyOfConcat(f, a, w);
    ApplyOfConcat(f, a + w, b);
    ApplyKeepsEnds(f, a);
    ApplyKeepsEnds(f, b);
  }

  /** Text between visible characters is rewritten on its own. */
  lemma GapIsRewrittenAlone(a: string, w: string, b: string)
    requires EndsSolid(a) && StartsSolid(b)
    ensures Rewritten(a + w + b) == Rewritten(a) + Rewritten(w) + Rewritten(b)
  {
    ApplyToGap(Trim, a, w, b);
    ApplyToGap(Squeeze, TrimLines(a), TrimLines(w), TrimLines(b));
    ApplyToGap(Cap, SqueezeBlanks(TrimLines(a)), SqueezeBlanks(TrimLines(w)), SqueezeBlanks(TrimLines(b)));
  }

  lemma LastOf(a: string, b: string)
    ensures b != "" ==> (a + b)[|a + b| - 1] == b[|b| - 1]
    ensures b == "" ==> a + b == a
  {
  }

  lemma FirstOf(a: string, b: string)
    ensures a != "" ==> (a + b)[0] == a[0]
    ensures a == "" ==> a + b == b
  {
  }

  lemma VisibleEnd(ws: char -> bool, s: string) returns (left: string, core: string)
    requires Whitespace(ws) && s != "" && !ws(s[|s| - 1])
    ensures s == left + core && Blank(ws, left) && core == Strip(ws, s) && EndsSolid(core)
    ensures !ws(core[0]) && !ws(core[|core| - 1])
  {
    var right;
    left, right := StripSplits(ws, s);
    core := Strip(ws, s);
    LastOf(left + core, right);
    LastOf(left, core);
  }

  lemma VisibleStart(ws: char -> bool, s: string) returns (core: string, right: string)
    requires Whitespace(ws) && s != "" && !ws(s[0])
    ensures s == core + right && Blank(ws, right) && core == Strip(ws, s) && StartsSolid(core)
    ensures !ws(core[0]) && !ws(core[|core| - 1])
  {
    var left;
    left, right := StripSplits(ws, s);
    core := Strip(ws, s);
    assert s == left + (core + right);
    FirstOf(left, core + right);
    FirstOf(core, right);
  }

  lemma GapIsNormalisedAlone(ws: char -> bool, a: string, w: string, b: string)
    requires Whitespace(ws) && a != "" && b != "" && !ws(a[|a| - 1]) && !ws(b[0])
    ensures Normalise(ws, a + w + b) == Normalise(ws, a) + Rewritten(w) + Normalise(ws, b)
  {
    var left, first := VisibleEnd(ws, a);
    var last, right := VisibleStart(ws, b);
    var core := first + w + last;
    assert core[0] == first[0] && core[|core| - 1] == last[|last| - 1];
    assert a + w + b == left + core + right;
    StripOfPadded(ws, left, core, right);
    NormaliseStripsFirst(ws, a + w + b);
    NormaliseStripsFirst(ws, a);
    NormaliseStripsFirst(ws, b);
    GapIsRewrittenAlone(first, w, last);
  }

  /**
   Between two visible characters a run of spaces and tabs becomes one space; a run of
   spaces and newlines becomes one newline if it holds one, and two if it holds more. What
   stands before and after is normalised on its own, in any text.
   */
  lemma GapBecomes(ws: char -> bool, a: string, w: string, b: string)
    requires Whitespace(ws) && a != "" && b != "" && !ws(a[|a| - 1]) && !ws(b[0])
    ensures BlankRun(w) ==> Normalise(ws, a + w + b) == Normalise(ws, a) + " " + Normalise(ws, b)
    ensures BreakRun(w) && |Breaks(w)| == 1 ==> Normalise(ws, a + w + b) == Normalise(ws, a) + "\n" + Normalise(ws, b)
    ensures BreakRun(w) && |Breaks(w)| >= 2 ==> Normalise(ws, a + w + b) == Normalise(ws, a) + "\n\n" + Normalise(ws, b)
  {
    GapIsNormalisedAlone(ws, a, w, b);
    if BlankRun(w) {
      BlankRunIsRewritten(w);
    }
    if BreakRun(w) {
      BreakRunIsRewritten(w);
    }
  }
}

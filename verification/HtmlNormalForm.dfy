/** Exactly which texts the three rewritings bring into normal form. */
module HtmlNormalForm {
  import opened HtmlText

  // ---------------------------------------------------------------- rewriting piece by piece

  /** A character that no rewriting looks at. */
  predicate Solid(c: char) {
    c != ' ' && c != '\t' && c != '\n'
  }

  /** No match of a rewriting can reach across the joint of the two texts. */
  predicate Joint(a: string, b: string) {
    a == "" || b == "" || Solid(a[|a| - 1]) || Solid(b[0])
  }

  lemma {:induction false} SpacesOfConcat(a: string, b: string)
    ensures LeadingSpaces(a + b) == if LeadingSpaces(a) < |a| then LeadingSpaces(a) else |a| + LeadingSpaces(b)
  {
    if a == "" {
      assert a + b == b;
    } else {
      SpacesOfConcat(a[1..], b);
      assert (a + b)[0] == a[0] && (a + b)[1..] == a[1..] + b;
    }
  }

  lemma {:induction false} BlanksOfConcat(a: string, b: string)
    ensures LeadingBlanks(a + b) == if LeadingBlanks(a) < |a| then LeadingBlanks(a) else |a| + LeadingBlanks(b)
  {
    if a == "" {
      assert a + b == b;
    } else {
      BlanksOfConcat(a[1..], b);
      assert (a + b)[0] == a[0] && (a + b)[1..] == a[1..] + b;
    }
  }

  lemma {:induction false} NewlinesOfConcat(a: string, b: string)
    ensures LeadingNewlines(a + b) ==
            if LeadingNewlines(a) < |a| then LeadingNewlines(a) else |a| + LeadingNewlines(b)
  {
    if a == "" {
      assert a + b == b;
    } else {
      NewlinesOfConcat(a[1..], b);
      assert (a + b)[0] == a[0] && (a + b)[1..] == a[1..] + b;
    }
  }

  /** Spaces in front of the joint stop there. */
  lemma SpacesStopAtJoint(a: string, b: string)
    requires a != "" && Joint(a, b)
    ensures LeadingSpaces(a) == |a| ==> LeadingSpaces(b) == 0 && (b == "" || b[0] != '\n')
    ensures LeadingSpaces(a + b) == LeadingSpaces(a)
  {
    SpacesAreSpaces(a);
    SpacesOfConcat(a, b);
  }

  /** Dropping the spaces that follow a line break. */
  lemma SpacesDropped(rest: string, b: string)
    requires Joint(rest, b) && (rest == "" ==> b == "" || Solid(b[0]))
    ensures var tail := rest[LeadingSpaces(rest)..];
            (rest + b)[LeadingSpaces(rest + b)..] == tail + b && Joint(tail, b)
  {
    if rest == "" {
      assert rest + b == b && LeadingSpaces(b) == 0;
    } else {
      SpacesStopAtJoint(rest, b);
      CutOfConcat(rest, b, LeadingSpaces(rest));
    }
  }

  lemma CutOfConcat(a: string, b: string, k: nat)
    requires k <= |a|
    ensures (a + b)[k..] == a[k..] + b
    ensures Joint(a, b) ==> Joint(a[k..], b)
  {
  }

  lemma BreakAtJoint(a: string, b: string)
    requires a != "" && Joint(a, b)
    ensures AtBreak(a + b) <==> AtBreak(a)
    ensures AtBreak(a) ==> AfterBreak(a + b) == AfterBreak(a) + b && Joint(AfterBreak(a), b)
  {
    SpacesStopAtJoint(a, b);
    if AtBreak(a) {
      var k := LeadingSpaces(a) + 1;
      CutOfConcat(a, b, k);
      assert a[k..] == "" ==> a[|a| - 1] == '\n';
      SpacesDropped(a[k..], b);
    }
  }

  lemma {:induction false} TrimLinesOfConcat(a: string, b: string)
    requires Joint(a, b)
    ensures TrimLines(a + b) == TrimLines(a) + TrimLines(b)
    decreases |a|
  {
    if a == "" {
      assert a + b == b;
    } else {
      BreakAtJoint(a, b);
      if AtBreak(a) {
        BreakHead(a);
        BreakHead(a + b);
        TrimLinesOfConcat(AfterBreak(a), b);
        Associate("\n", TrimLines(AfterBreak(a)), TrimLines(b));
      } else {
        PlainHead(a);
        PlainHead(a + b);
        HeadOfConcat(a, b, 1);
        TrimLinesOfConcat(a[1..], b);
        Associate([a[0]], TrimLines(a[1..]), TrimLines(b));
      }
    }
  }

  lemma Associate(a: string, b: string, c: string)
    ensures a + (b + c) == (a + b) + c
  {
  }

  lemma HeadOfConcat(a: string, b: string, k: nat)
    requires 0 < k <= |a|
    ensures (a + b)[0] == a[0] && (a + b)[k..] == a[k..] + b
    ensures Joint(a, b) ==> Joint(a[k..], b)
  {
  }

  /** One match, or one character, of the second rewriting: how far it reaches and what it leaves. */
  function SqueezedSpan(s: string): (k: nat)
    requires s != ""
    ensures 0 < k <= |s|
  {
    if IsBlank(s[0]) then LeadingBlanks(s) else 1
  }

  lemma SqueezeHead(s: string)
    requires s != ""
    ensures SqueezeBlanks(s) == [if IsBlank(s[0]) then ' ' else s[0]] + SqueezeBlanks(s[SqueezedSpan(s)..])
  {
  }

  lemma SqueezeAtJoint(a: string, b: string)
    requires a != "" && Joint(a, b)
    ensures SqueezedSpan(a + b) == SqueezedSpan(a)
  {
    BlanksOfConcat(a, b);
    BlanksAreBlank(a);
    assert LeadingBlanks(a) == |a| ==> IsBlank(a[|a| - 1]);
  }

  lemma {:induction false} SqueezeBlanksOfConcat(a: string, b: string)
    requires Joint(a, b)
    ensures SqueezeBlanks(a + b) == SqueezeBlanks(a) + SqueezeBlanks(b)
    decreases |a|
  {
    if a == "" {
      assert a + b == b;
    } else {
      var k := SqueezedSpan(a);
      SqueezeAtJoint(a, b);
      SqueezeHead(a);
      SqueezeHead(a + b);
      HeadOfConcat(a, b, k);
      SqueezeBlanksOfConcat(a[k..], b);
      Associate([if IsBlank(a[0]) then ' ' else a[0]], SqueezeBlanks(a[k..]), SqueezeBlanks(b));
    }
  }

  function CappedSpan(s: string): (k: nat)
    requires s != ""
    ensures 0 < k <= |s|
  {
    if LeadingNewlines(s) >= 3 then LeadingNewlines(s) else 1
  }

  lemma CapHead(s: string)
    requires s != ""
    ensures CapNewlines(s) == (if LeadingNewlines(s) >= 3 then "\n\n" else [s[0]]) + CapNewlines(s[CappedSpan(s)..])
  {
  }

  lemma CapAtJoint(a: string, b: string)
    requires a != "" && Joint(a, b)
    ensures LeadingNewlines(a + b) == LeadingNewlines(a)
  {
    NewlinesOfConcat(a, b);
    NewlinesAreNewlines(a);
    assert LeadingNewlines(a) == |a| ==> a[|a| - 1] == '\n';
  }

  lemma {:induction false} CapNewlinesOfConcat(a: string, b: string)
    requires Joint(a, b)
    ensures CapNewlines(a + b) == CapNewlines(a) + CapNewlines(b)
    decreases |a|
  {
    if a == "" {
      assert a + b == b;
    } else {
      var k := CappedSpan(a);
      CapAtJoint(a, b);
      CapHead(a);
      CapHead(a + b);
      HeadOfConcat(a, b, k);
      CapNewlinesOfConcat(a[k..], b);
      Associate(if LeadingNewlines(a) >= 3 then "\n\n" else [a[0]], CapNewlines(a[k..]), CapNewlines(b));
    }
  }

  // ---------------------------------------------------------------- stripping first or last

  predicate Blank(ws: char -> bool, s: string) {
    forall i :: 0 <= i < |s| ==> ws(s[i])
  }

  lemma {:induction false} InklessIsBlank(ws: char -> bool, s: string)
    requires Ink(ws, s) == ""
    ensures Blank(ws, s)
  {
    if s != "" {
      InklessIsBlank(ws, s[1..]);
      forall i | 0 < i < |s| ensures s[i] == s[1..][i - 1] {}
    }
  }

  lemma {:induction false} StripLeftOfPadded(ws: char -> bool, left: string, core: string)
    requires Blank(ws, left) && (core == "" || !ws(core[0]))
    ensures StripLeft(ws, left + core) == core
  {
    if left == "" {
      assert left + core == core;
    } else {
      StripLeftOfPadded(ws, left[1..], core);
      assert (left + core)[1..] == left[1..] + core;
    }
  }

  lemma {:induction false} StripRightOfPadded(ws: char -> bool, core: string, right: string)
    requires Blank(ws, right) && (core == "" || !ws(core[|core| - 1]))
    ensures StripRight(ws, core + right) == core
    decreases |right|
  {
    if right == "" {
      assert core + right == core;
    } else {
      var k := |right| - 1;
      StripRightOfPadded(ws, core, right[..k]);
      assert (core + right)[..|core + right| - 1] == core + right[..k];
    }
  }

  lemma StripOfPadded(ws: char -> bool, left: string, core: string, right: string)
    requires Blank(ws, left) && Blank(ws, right) && Stripped(ws, core)
    ensures Strip(ws, left + core + right) == core
  {
    if core == "" {
      assert left + core + right == (left + right) + "";
      StripLeftOfPadded(ws, left + right, "");
    } else {
      assert left + core + right == left + (core + right);
      StripLeftOfPadded(ws, left, core + right);
      StripRightOfPadded(ws, core, right);
    }
  }

  /** A text is what strip() leaves of it, between blanks. */
  lemma StripSplits(ws: char -> bool, s: string) returns (left: string, right: string)
    ensures s == left + Strip(ws, s) + right
    ensures Blank(ws, left) && Blank(ws, right) && Stripped(ws, Strip(ws, s))
  {
    var n := StripLeftIsASuffix(ws, s);
    var rest := s[n..];
    var m := StripRightIsAPrefix(ws, rest);
    left, right := s[..n], rest[m..];
    assert s == left + rest && rest == rest[..m] + right;
    assert left + (rest[..m] + right) == left + rest[..m] + right;
  }

  lemma StripIdle(ws: char -> bool, s: string)
    ensures Strip(ws, s) == s <==> Stripped(ws, s)
  {
    var left, right := StripSplits(ws, s);
    if Stripped(ws, s) {
      StripOfPadded(ws, "", s, "");
      assert "" + s + "" == s;
    }
  }

  /** The three rewritings, by name. */
  datatype Rewriting = Trim | Squeeze | Cap

  function Apply(f: Rewriting, s: string): string {
    match f
    case Trim => TrimLines(s)
    case Squeeze => SqueezeBlanks(s)
    case Cap => CapNewlines(s)
  }

  lemma ApplyOfConcat(f: Rewriting, a: string, b: string)
    requires Joint(a, b)
    ensures Apply(f, a + b) == Apply(f, a) + Apply(f, b)
  {
    match f {
      case Trim => TrimLinesOfConcat(a, b);
      case Squeeze => SqueezeBlanksOfConcat(a, b);
      case Cap => CapNewlinesOfConcat(a, b);
    }
  }

  lemma ApplyKeepsBlank(f: Rewriting, ws: char -> bool, s: string)
    requires Whitespace(ws) && Blank(ws, s)
    ensures Blank(ws, Apply(f, s))
  {
    NoInk(ws, s);
    match f {
      case Trim => TrimLinesKeepsInk(ws, s);
      case Squeeze => SqueezeBlanksKeepsInk(ws, s);
      case Cap => CapNewlinesKeepsInk(ws, s);
    }
    InklessIsBlank(ws, Apply(f, s));
  }

  lemma ApplyOfSolid(f: Rewriting, c: char)
    requires Solid(c)
    ensures Apply(f, [c]) == [c]
  {
    assert [c][1..] == "";
    assert TrimLines("") == "" && SqueezeBlanks("") == "" && CapNewlines("") == "";
  }

  /** A rewriting leaves the ends of a stripped text alone. */
  lemma ApplyKeepsStripped(f: Rewriting, ws: char -> bool, s: string)
    requires Whitespace(ws) && Stripped(ws, s)
    ensures Stripped(ws, Apply(f, s))
  {
    if s != "" {
      var k := |s| - 1;
      ApplyOfConcat(f, [s[0]], s[1..]);
      ApplyOfSolid(f, s[0]);
      assert s == [s[0]] + s[1..];
      ApplyOfConcat(f, s[..k], [s[k]]);
      ApplyOfSolid(f, s[k]);
      assert s == s[..k] + [s[k]];
    }
  }

  lemma StripAround(f: Rewriting, ws: char -> bool, left: string, core: string, right: string)
    requires Whitespace(ws) && Blank(ws, left) && Blank(ws, right) && Stripped(ws, core) && core != ""
    ensures Strip(ws, Apply(f, left + (core + right))) == Apply(f, core)
  {
    ApplyKeepsBlank(f, ws, left);
    ApplyKeepsBlank(f, ws, right);
    ApplyKeepsStripped(f, ws, core);
    ApplyOfConcat(f, left, core + right);
    ApplyOfConcat(f, core, right);
    Associate(Apply(f, left), Apply(f, core), Apply(f, right));
    StripOfPadded(ws, Apply(f, left), Apply(f, core), Apply(f, right));
  }

  lemma StripOfBlank(f: Rewriting, ws: char -> bool, s: string)
    requires Whitespace(ws) && Blank(ws, s)
    ensures Strip(ws, Apply(f, s)) == ""
  {
    ApplyKeepsBlank(f, ws, s);
    StripOfPadded(ws, Apply(f, s), "", "");
    assert Apply(f, s) + "" + "" == Apply(f, s);
  }

  /** Stripping first or last makes no difference to a rewriting. */
  lemma StripCommutes(f: Rewriting, ws: char -> bool, s: string)
    requires Whitespace(ws)
    ensures Strip(ws, Apply(f, s)) == Apply(f, Strip(ws, s))
  {
    var left, right := StripSplits(ws, s);
    var core := Strip(ws, s);
    if core == "" {
      assert s == left + right;
      StripOfBlank(f, ws, s);
      assert Apply(f, "") == "";
    } else {
      Associate(left, core, right);
      StripAround(f, ws, left, core, right);
    }
  }

  lemma NormaliseStripsFirst(ws: char -> bool, raw: string)
    requires Whitespace(ws)
    ensures Normalise(ws, raw) == CapNewlines(SqueezeBlanks(TrimLines(Strip(ws, raw))))
    ensures Stripped(ws, TrimLines(Strip(ws, raw)))
  {
    var trimmed := TrimLines(raw);
    var squeezed := SqueezeBlanks(trimmed);
    StripCommutes(Cap, ws, squeezed);
    StripCommutes(Squeeze, ws, trimmed);
    StripCommutes(Trim, ws, raw);
    var left, right := StripSplits(ws, raw);
    ApplyKeepsStripped(Trim, ws, Strip(ws, raw));
  }

  // ---------------------------------------------------------------- tabs beside line breaks

  /** Only spaces stand from i up to j. */
  predicate SpacesBetween(s: string, i: nat, j: nat) {
    forall k :: i <= k < j && k < |s| ==> s[k] == ' '
  }

  predicate TabAndBreak(a: char, b: char) {
    (a == '\t' && b == '\n') || (a == '\n' && b == '\t')
  }

  predicate PairApart(s: string, i: nat, j: nat)
    requires i < j < |s|
  {
    SpacesBetween(s, i + 1, j) ==> !TabAndBreak(s[i], s[j])
  }

  /** No tab stands beside a line break, not even with spaces between them. */
  predicate TabsApart(s: string) {
    forall i, j :: 0 <= i < j < |s| ==> PairApart(s, i, j)
  }

  /** The first character that is not a space. */
  predicate StartsWith(s: string, c: char)
    requires c != ' '
  {
    LeadingSpaces(s) < |s| && s[LeadingSpaces(s)] == c
  }

  lemma {:induction false} LeadingSpacesIs(s: string, n: nat)
    requires n < |s| && s[n] != ' ' && forall i :: 0 <= i < n ==> s[i] == ' '
    ensures LeadingSpaces(s) == n
  {
    if n > 0 {
      LeadingSpacesIs(s[1..], n - 1);
    }
  }

  /** The pair formed with a character put in front. */
  lemma FrontPair(c: char, s: string, j: nat)
    requires j < |s|
    ensures SpacesBetween([c] + s, 1, j + 1) && s[j] != ' ' <==> j == LeadingSpaces(s)
  {
    var t := [c] + s;
    SpacesAreSpaces(s);
    if SpacesBetween(t, 1, j + 1) && s[j] != ' ' {
      forall i | 0 <= i < j ensures s[i] == ' ' { assert t[i + 1] == s[i]; }
      LeadingSpacesIs(s, j);
    }
  }

  lemma LaterPair(c: char, s: string, i: nat, j: nat)
    requires i < j < |s|
    ensures SpacesBetween([c] + s, i + 2, j + 1) <==> SpacesBetween(s, i + 1, j)
  {
    var t := [c] + s;
    forall k | 0 <= k < |s| ensures t[k + 1] == s[k] {}
    if SpacesBetween(t, i + 2, j + 1) {
      forall k | i + 1 <= k < j ensures s[k] == ' ' { assert t[k + 1] == s[k]; }
    }
  }

  lemma TabsApartCons(c: char, s: string)
    ensures TabsApart([c] + s) <==>
            && TabsApart(s)
            && !(c == '\t' && StartsWith(s, '\n')) && !(c == '\n' && StartsWith(s, '\t'))
  {
    var t := [c] + s;
    forall i, j | 0 <= i < j < |s| ensures PairApart(t, i + 1, j + 1) == PairApart(s, i, j) {
      LaterPair(c, s, i, j);
    }
    forall j | 0 <= j < |s| ensures
      PairApart(t, 0, j + 1) <==> !(j == LeadingSpaces(s) && TabAndBreak(c, s[j]))
    {
      FrontPair(c, s, j);
    }
    if TabsApart(t) {
      forall i, j | 0 <= i < j < |s| ensures PairApart(s, i, j) { assert PairApart(t, i + 1, j + 1); }
      var k := LeadingSpaces(s);
      assert k < |s| ==> PairApart(t, 0, k + 1);
    } else {
      var i, j :| 0 <= i < j < |t| && !PairApart(t, i, j);
      assert i > 0 ==> !PairApart(s, i - 1, j - 1);
    }
  }

  /** Leading spaces decide nothing. */
  lemma {:induction false} SpacesBeforeTabs(s: string)
    ensures TabsApart(s) <==> TabsApart(s[LeadingSpaces(s)..])
  {
    if s != "" && s[0] == ' ' {
      SpacesBeforeTabs(s[1..]);
      TabsApartCons(' ', s[1..]);
      assert s == [' '] + s[1..];
      assert s[LeadingSpaces(s)..] == s[1..][LeadingSpaces(s[1..])..];
    } else {
      assert s[0..] == s;
    }
  }

  lemma BlanksApartCons(c: char, s: string)
    ensures BlanksApart([c] + s) <==>
            BlanksApart(s) && (s == "" || !((IsBlank(c) && s[0] == '\n') || (c == '\n' && IsBlank(s[0]))))
  {
    BlanksApartFrom([c] + s, 1);
    assert ([c] + s)[1..] == s;
  }

  /** The first rewriting leaves a blank beside a newline exactly where the text has a tab beside a line break. */
  lemma {:induction false} TrimmingLeavesTheTabs(s: string)
    ensures BlanksApart(TrimLines(s)) <==> TabsApart(s)
    decreases |s|
  {
    if s != "" {
      if AtBreak(s) {
        TabsBesideABreak(s);
        var tail := AfterBreak(s);
        BreakHead(s);
        TrimmingLeavesTheTabs(tail);
        TrimLinesStart(tail);
        BlanksApartCons('\n', TrimLines(tail));
        assert ['\n'] + TrimLines(tail) == TrimLines(s);
      } else {
        PlainHead(s);
        TrimmingLeavesTheTabs(s[1..]);
        TrimLinesStart(s[1..]);
        BlanksApartCons(s[0], TrimLines(s[1..]));
        TabsApartCons(s[0], s[1..]);
        assert [s[0]] + s[1..] == s;
      }
    }
  }

  lemma TabsAfterNewline(rest: string)
    ensures var tail := rest[LeadingSpaces(rest)..];
            && (TabsApart(['\n'] + rest) <==> TabsApart(tail) && !(tail != "" && tail[0] == '\t'))
            && (tail == "" || tail[0] != ' ')
  {
    TabsApartCons('\n', rest);
    SpacesBeforeTabs(rest);
    SpacesAreSpaces(rest);
  }

  /** At a line break what matters is whether a tab follows it. */
  lemma TabsBesideABreak(s: string)
    requires AtBreak(s)
    ensures var tail := AfterBreak(s);
            && (TabsApart(s) <==> TabsApart(tail) && !(tail != "" && tail[0] == '\t'))
            && (tail == "" || tail[0] != ' ')
  {
    var k := LeadingSpaces(s);
    SpacesBeforeTabs(s);
    assert s[k..] == ['\n'] + s[k + 1..];
    TabsAfterNewline(s[k + 1..]);
  }

  // ---------------------------------------------------------------- exactly when

  lemma {:induction false} CappingKeepsLines(s: string)
    ensures LinesTrimmed(CapNewlines(s)) ==> LinesTrimmed(s)
    decreases |s|
  {
    if s != "" {
      var k := LeadingNewlines(s);
      NewlinesAreNewlines(s);
      if k >= 3 {
        CappingKeepsLines(s[k..]);
        CapNewlinesStart(s[k..]);
        var capped := CapNewlines(s[k..]);
        assert CapNewlines(s) == "\n\n" + capped;
        assert "\n\n" + capped == ['\n'] + (['\n'] + capped);
        TrimmedCons('\n', ['\n'] + capped);
        TrimmedCons('\n', capped);
        if LinesTrimmed(CapNewlines(s)) {
          NewlinesInFront(s, k);
        }
      } else {
        CappingKeepsLines(s[1..]);
        CapNewlinesStart(s[1..]);
        TrimmedCons(s[0], CapNewlines(s[1..]));
        TrimmedCons(s[0], s[1..]);
        assert [s[0]] + s[1..] == s;
      }
    }
  }

  lemma NewlinesInFront(s: string, k: nat)
    requires 0 < k <= |s| && (forall i :: 0 <= i < k ==> s[i] == '\n')
    requires LinesTrimmed(s[k..]) && (k == |s| || Apart('\n', s[k]))
    ensures LinesTrimmed(s)
  {
    forall i | 0 <= i < |s| - 1 ensures Apart(s[i], s[i + 1]) {
      if i >= k {
        assert s[i] == s[k..][i - k] && s[i + 1] == s[k..][i - k + 1];
      }
    }
  }

  /**
   The page text is in normal form if and only if, between its first and its last visible
   character, the raw text has no tab beside a line break, not even with spaces between.
   */
  lemma NormalIff(ws: char -> bool, raw: string)
    requires Whitespace(ws)
    ensures Normal(ws, Normalise(ws, raw)) <==> TabsApart(Strip(ws, raw))
    ensures TabsApart(Strip(ws, raw)) <==> BlanksApart(Strip(ws, TrimLines(raw)))
  {
    var trimmed := TrimLines(Strip(ws, raw));
    var squeezed := SqueezeBlanks(trimmed);
    NormaliseStripsFirst(ws, raw);
    StripCommutes(Trim, ws, raw);
    TrimmingLeavesTheTabs(Strip(ws, raw));
    SqueezeKeepsLinesIff(trimmed);
    if LinesTrimmed(CapNewlines(squeezed)) {
      CappingKeepsLines(squeezed);
    }
    if BlanksApart(trimmed) {
      SqueezeBlanksSqueezes(trimmed);
      CapNewlinesCaps(squeezed);
      ApplyKeepsStripped(Squeeze, ws, trimmed);
      ApplyKeepsStripped(Cap, ws, squeezed);
    }
  }

  lemma TabFreeIsApart(s: string)
    requires TabFree(s)
    ensures TabsApart(s)
  {
  }

  lemma {:induction false} CappingAddsNoTab(s: string)
    requires TabFree(s)
    ensures TabFree(CapNewlines(s))
    decreases |s|
  {
    if s != "" {
      var k := LeadingNewlines(s);
      if k >= 3 {
        TabFreeTail(s, k);
        CappingAddsNoTab(s[k..]);
        TabFreeCons('\n', CapNewlines(s[k..]));
        TabFreeCons('\n', ['\n'] + CapNewlines(s[k..]));
        assert "\n\n" + CapNewlines(s[k..]) == ['\n'] + (['\n'] + CapNewlines(s[k..]));
      } else {
        TabFreeTail(s, 1);
        CappingAddsNoTab(s[1..]);
        TabFreeCons(s[0], CapNewlines(s[1..]));
      }
    }
  }

  /** No tab survives, whatever the text. */
  lemma NormaliseDropsTabs(ws: char -> bool, raw: string)
    ensures TabFree(Normalise(ws, raw))
  {
    SqueezeBlanksSqueezes(TrimLines(raw));
    CappingAddsNoTab(SqueezeBlanks(TrimLines(raw)));
    var s := CapNewlines(SqueezeBlanks(TrimLines(raw)));
    var left, right := StripSplits(ws, s);
    assert forall i :: 0 <= i < |Strip(ws, s)| ==> Strip(ws, s)[i] == s[|left| + i];
  }

  /** Normalising twice is normalising once exactly for these texts; twice is always enough. */
  lemma IdempotentIff(ws: char -> bool, raw: string)
    requires Whitespace(ws)
    ensures Normalise(ws, Normalise(ws, raw)) == Normalise(ws, raw) <==> TabsApart(Strip(ws, raw))
    ensures Normal(ws, Normalise(ws, Normalise(ws, raw)))
    ensures Normalise(ws, Normalise(ws, Normalise(ws, raw))) == Normalise(ws, Normalise(ws, raw))
  {
    var once := Normalise(ws, raw);
    NormalIff(ws, raw);
    NormaliseDropsTabs(ws, raw);
    NormaliseNormalises(ws, once);
    NormalTextIsAFixpoint(ws, Normalise(ws, once));
    if TabsApart(Strip(ws, raw)) {
      NormalTextIsAFixpoint(ws, once);
    }
  }

  /** A tab at the end of a line becomes a space beside the line break; a second pass removes it. */
  lemma TabAtLineEndSurvives(ws: char -> bool)
    requires Whitespace(ws) && !ws('a') && !ws('b')
    ensures Normalise(ws, "a\t\nb") == "a \nb" && !Normal(ws, "a \nb")
    ensures Normalise(ws, "a \nb") == "a\nb"
  {
    FirstPass();
    SecondPass();
    NormaliseIs(ws, "a\t\nb", "a \nb");
    NormaliseIs(ws, "a \nb", "a\nb");
    SpaceBesideNewline("a \nb", 1);
  }

  lemma NormaliseIs(ws: char -> bool, raw: string, s: string)
    requires CapNewlines(SqueezeBlanks(TrimLines(raw))) == s && s != "" && !ws(s[0]) && !ws(s[|s| - 1])
    ensures Normalise(ws, raw) == s
  {
    StripIdle(ws, s);
  }

  lemma SpaceBesideNewline(s: string, i: nat)
    requires i + 1 < |s| && s[i] == ' ' && s[i + 1] == '\n'
    ensures !LinesTrimmed(s)
  {
  }

  lemma TabAtLineEnd()
    ensures SqueezeBlanks("\t\nb") == " \nb"
  {
    SqueezeHead("\t\nb");
    BlanksAreBlank("\t\nb");
    assert "\t\nb"[1..] == "\nb";
    SqueezeBlanksIdle("\nb");
  }

  lemma FirstSqueeze()
    ensures SqueezeBlanks("a\t\nb") == "a \nb"
  {
    assert "a\t\nb" == "a" + "\t\nb" && "a \nb" == "a" + " \nb";
    SqueezeBlanksOfConcat("a", "\t\nb");
    SqueezeBlanksIdle("a");
    TabAtLineEnd();
  }

  lemma FirstPass()
    ensures CapNewlines(SqueezeBlanks(TrimLines("a\t\nb"))) == "a \nb"
  {
    TrimLeaves("a\t\nb");
    FirstSqueeze();
    CapLeaves("a \nb");
  }

  lemma TrimLeaves(s: string)
    requires |s| == 4 && s[1] == '\t' && s[2] == '\n' && s[0] != '\n' && s[3] != ' '
    ensures TrimLines(s) == s
  {
    TrimLinesIdle(s);
  }

  lemma CapLeaves(s: string)
    requires |s| == 4 && s[1] != '\n'
    ensures CapNewlines(s) == s
  {
    CapNewlinesIdle(s);
  }

  lemma SpaceAtLineEnd()
    ensures TrimLines(" \nb") == "\nb"
  {
    LeadingSpacesIs(" \nb", 1);
    LeadingSpacesIs("b", 0);
    assert " \nb"[2..] == "b" && "b"[0..] == "b";
    BreakHead(" \nb");
    TrimLinesIdle("b");
  }

  lemma SecondTrim()
    ensures TrimLines("a \nb") == "a\nb"
  {
    assert "a \nb" == "a" + " \nb" && "a\nb" == "a" + "\nb";
    TrimLinesOfConcat("a", " \nb");
    TrimLinesIdle("a");
    SpaceAtLineEnd();
  }

  lemma SecondPass()
    ensures CapNewlines(SqueezeBlanks(TrimLines("a \nb"))) == "a\nb"
  {
    SecondTrim();
    SqueezeBlanksIdle("a\nb");
    CapNewlinesIdle("a\nb");
  }
}

/** Text taken from HTML, and the three rewritings that normalise its whitespace. */
module HtmlText {

  /** What strip() takes for whitespace: spaces, tabs and newlines, and perhaps more. */
  ghost predicate Whitespace(ws: char -> bool) {
    ws(' ') && ws('\t') && ws('\n')
  }

  predicate IsBlank(c: char) {
    c == ' ' || c == '\t'
  }

  /** How many spaces, blanks or newlines a text starts with. */
  function LeadingSpaces(s: string): (n: nat)
    ensures n <= |s|
  {
    if s == "" || s[0] != ' ' then 0 else 1 + LeadingSpaces(s[1..])
  }

  function LeadingBlanks(s: string): (n: nat)
    ensures n <= |s|
  {
    if s == "" || !IsBlank(s[0]) then 0 else 1 + LeadingBlanks(s[1..])
  }

  function LeadingNewlines(s: string): (n: nat)
    ensures n <= |s|
  {
    if s == "" || s[0] != '\n' then 0 else 1 + LeadingNewlines(s[1..])
  }

  // Replaces each newline, with the spaces around it, by a newline: leftmost first, greedily.
  function TrimLines(s: string): string
    decreases |s|
  {
    if s == "" then ""
    else
      var k := LeadingSpaces(s);
      if k < |s| && s[k] == '\n' then
        var rest := s[k + 1..];
        "\n" + TrimLines(rest[LeadingSpaces(rest)..])
      else [s[0]] + TrimLines(s[1..])
  }

  // Replaces each run of spaces and tabs by one space.
  function SqueezeBlanks(s: string): string
    decreases |s|
  {
    if s == "" then ""
    else if IsBlank(s[0]) then
      assert LeadingBlanks(s) > 0;
      " " + SqueezeBlanks(s[LeadingBlanks(s)..])
    else [s[0]] + SqueezeBlanks(s[1..])
  }

  // Replaces each run of three or more newlines by two.
  function CapNewlines(s: string): string
    decreases |s|
  {
    if s == "" then ""
    else
      var k := LeadingNewlines(s);
      if k >= 3 then "\n\n" + CapNewlines(s[k..])
      else [s[0]] + CapNewlines(s[1..])
  }

  function StripLeft(ws: char -> bool, s: string): string {
    if s == "" || !ws(s[0]) then s else StripLeft(ws, s[1..])
  }

  function StripRight(ws: char -> bool, s: string): string {
    if s == "" || !ws(s[|s| - 1]) then s else StripRight(ws, s[..|s| - 1])
  }

  function Strip(ws: char -> bool, s: string): string {
    StripRight(ws, StripLeft(ws, s))
  }

  function Normalise(ws: char -> bool, raw: string): string {
    Strip(ws, CapNewlines(SqueezeBlanks(TrimLines(raw))))
  }

  // ---------------------------------------------------------------- the normal form

  predicate TabFree(s: string) {
    forall i :: 0 <= i < |s| ==> s[i] != '\t'
  }

  /** No space stands beside a newline. */
  predicate LinesTrimmed(s: string) {
    forall i :: 0 <= i < |s| - 1 ==> !(s[i] == ' ' && s[i + 1] == '\n') && !(s[i] == '\n' && s[i + 1] == ' ')
  }

  predicate SingleSpaced(s: string) {
    forall i :: 0 <= i < |s| - 1 ==> !(s[i] == ' ' && s[i + 1] == ' ')
  }

  predicate NewlinesCapped(s: string) {
    forall i :: 0 <= i < |s| - 2 ==> !(s[i] == '\n' && s[i + 1] == '\n' && s[i + 2] == '\n')
  }

  ghost predicate Stripped(ws: char -> bool, s: string) {
    s == "" || (!ws(s[0]) && !ws(s[|s| - 1]))
  }

  ghost predicate Inner(s: string) {
    TabFree(s) && LinesTrimmed(s) && SingleSpaced(s) && NewlinesCapped(s)
  }

  ghost predicate Normal(ws: char -> bool, s: string) {
    Inner(s) && Stripped(ws, s)
  }

  lemma {:induction false} SpacesAreSpaces(s: string)
    ensures forall i :: 0 <= i < LeadingSpaces(s) ==> s[i] == ' '
    ensures LeadingSpaces(s) < |s| ==> s[LeadingSpaces(s)] != ' '
  {
    if s != "" && s[0] == ' ' {
      SpacesAreSpaces(s[1..]);
    }
  }

  lemma {:induction false} BlanksAreBlank(s: string)
    ensures forall i :: 0 <= i < LeadingBlanks(s) ==> IsBlank(s[i])
    ensures LeadingBlanks(s) < |s| ==> !IsBlank(s[LeadingBlanks(s)])
  {
    if s != "" && IsBlank(s[0]) {
      BlanksAreBlank(s[1..]);
    }
  }

  lemma {:induction false} NewlinesAreNewlines(s: string)
    ensures forall i :: 0 <= i < LeadingNewlines(s) ==> s[i] == '\n'
    ensures LeadingNewlines(s) < |s| ==> s[LeadingNewlines(s)] != '\n'
  {
    if s != "" && s[0] == '\n' {
      NewlinesAreNewlines(s[1..]);
    }
  }

  /** A trimmed text starts with a newline where spaces lead up to one, and otherwise as before. */
  lemma {:induction false} TrimLinesStart(s: string)
    ensures s == "" <==> TrimLines(s) == ""
    ensures s != "" ==>
              var k := LeadingSpaces(s);
              TrimLines(s)[0] == if k < |s| && s[k] == '\n' then '\n' else s[0]
  {
  }

  predicate Apart(a: char, b: char) {
    !(a == ' ' && b == '\n') && !(a == '\n' && b == ' ')
  }

  lemma TrimmedCons(c: char, s: string)
    ensures LinesTrimmed([c] + s) <==> LinesTrimmed(s) && (s == "" || Apart(c, s[0]))
  {
    var t := [c] + s;
    assert forall i :: 0 < i < |t| ==> t[i] == s[i - 1];
    if LinesTrimmed(t) {
      forall i | 0 <= i < |s| - 1 ensures Apart(s[i], s[i + 1]) {
        assert s[i] == t[i + 1] && s[i + 1] == t[i + 2];
      }
      assert s != "" ==> t[0] == c && t[1] == s[0];
    } else {
      assert exists i :: 0 <= i < |t| - 1 && !Apart(t[i], t[i + 1]);
    }
  }

  predicate AtBreak(s: string) {
    var k := LeadingSpaces(s);
    k < |s| && s[k] == '\n'
  }

  /** The text after a break and the spaces around it. */
  function AfterBreak(s: string): (tail: string)
    requires AtBreak(s)
    ensures |tail| < |s|
  {
    var rest := s[LeadingSpaces(s) + 1..];
    rest[LeadingSpaces(rest)..]
  }

  lemma BreakHead(s: string)
    requires AtBreak(s)
    ensures TrimLines(s) == "\n" + TrimLines(AfterBreak(s))
    ensures TrimLines(AfterBreak(s)) == "" || Apart('\n', TrimLines(AfterBreak(s))[0])
  {
    SpacesAreSpaces(s[LeadingSpaces(s) + 1..]);
    TrimLinesStart(AfterBreak(s));
  }

  lemma PlainHead(s: string)
    requires s != "" && !AtBreak(s)
    ensures TrimLines(s) == [s[0]] + TrimLines(s[1..])
    ensures TrimLines(s[1..]) == "" || Apart(s[0], TrimLines(s[1..])[0])
  {
    TrimLinesStart(s[1..]);
  }

  /** The first rewriting leaves no space beside a newline, in any text. */
  lemma {:induction false} TrimLinesTrims(s: string)
    ensures LinesTrimmed(TrimLines(s))
    decreases |s|
  {
    if s != "" {
      if AtBreak(s) {
        BreakHead(s);
        TrimLinesTrims(AfterBreak(s));
        TrimmedCons('\n', TrimLines(AfterBreak(s)));
      } else {
        PlainHead(s);
        TrimLinesTrims(s[1..]);
        TrimmedCons(s[0], TrimLines(s[1..]));
      }
    }
  }

  lemma TabFreeCons(c: char, s: string)
    requires c != '\t' && TabFree(s)
    ensures TabFree([c] + s)
  {
    forall i | 0 < i < |[c] + s| ensures ([c] + s)[i] == s[i - 1] {}
  }

  lemma TabFreeTail(s: string, from: nat)
    requires TabFree(s) && from <= |s|
    ensures TabFree(s[from..])
  {
    forall i | 0 <= i < |s[from..]| ensures s[from..][i] == s[from + i] {}
  }

  lemma {:induction false} TrimLinesAddsNoTab(s: string)
    requires TabFree(s)
    ensures TabFree(TrimLines(s))
    decreases |s|
  {
    if s != "" {
      if AtBreak(s) {
        BreakHead(s);
        TabFreeTail(s, LeadingSpaces(s) + 1);
        TabFreeTail(s[LeadingSpaces(s) + 1..], LeadingSpaces(s[LeadingSpaces(s) + 1..]));
        TrimLinesAddsNoTab(AfterBreak(s));
        TabFreeCons('\n', TrimLines(AfterBreak(s)));
      } else {
        PlainHead(s);
        TabFreeTail(s, 1);
        TrimLinesAddsNoTab(s[1..]);
        TabFreeCons(s[0], TrimLines(s[1..]));
      }
    }
  }

  lemma {:induction false} SqueezeBlanksStart(s: string)
    ensures s == "" <==> SqueezeBlanks(s) == ""
    ensures s != "" ==> SqueezeBlanks(s)[0] == if IsBlank(s[0]) then ' ' else s[0]
  {
  }

  predicate BlanksApartAt(s: string, i: nat)
    requires i + 1 < |s|
  {
    !(IsBlank(s[i]) && s[i + 1] == '\n') && !(s[i] == '\n' && IsBlank(s[i + 1]))
  }

  /** Neither a space nor a tab stands beside a newline. */
  predicate BlanksApart(s: string) {
    forall i :: 0 <= i < |s| - 1 ==> BlanksApartAt(s, i)
  }

  /** Dropping characters from the front keeps the pairs behind them. */
  lemma BlanksApartFrom(s: string, k: nat)
    requires 0 < k <= |s|
    requires forall i :: 0 <= i < k - 1 ==> BlanksApartAt(s, i)
    ensures BlanksApart(s) <==> BlanksApart(s[k..]) && (k < |s| ==> BlanksApartAt(s, k - 1))
  {
    var t := s[k..];
    assert forall i :: 0 <= i < |t| - 1 ==> BlanksApartAt(t, i) == BlanksApartAt(s, k + i);
    if BlanksApart(t) && (k < |s| ==> BlanksApartAt(s, k - 1)) {
      forall i | 0 <= i < |s| - 1 ensures BlanksApartAt(s, i) {
        if i >= k {
          assert BlanksApartAt(t, i - k);
        }
      }
    }
  }

  /** The second rewriting leaves a space beside a newline exactly where a blank stood beside one. */
  lemma {:induction false} SqueezeKeepsLinesIff(s: string)
    ensures LinesTrimmed(SqueezeBlanks(s)) <==> BlanksApart(s)
    decreases |s|
  {
    if s != "" {
      var k := if IsBlank(s[0]) then LeadingBlanks(s) else 1;
      BlanksAreBlank(s);
      assert forall i :: 0 <= i < k - 1 ==> BlanksApartAt(s, i);
      BlanksApartFrom(s, k);
      SqueezeKeepsLinesIff(s[k..]);
      SqueezeBlanksStart(s[k..]);
      TrimmedCons(if IsBlank(s[0]) then ' ' else s[0], SqueezeBlanks(s[k..]));
    }
  }

  lemma SpacedCons(c: char, s: string)
    requires c != '\t' && TabFree(s) && SingleSpaced(s) && (s == "" || !(c == ' ' && s[0] == ' '))
    ensures TabFree([c] + s) && SingleSpaced([c] + s)
  {
    var t := [c] + s;
    assert forall i :: 0 < i < |t| ==> t[i] == s[i - 1];
  }

  /** Whatever the text, no tab and no double space is left. */
  lemma {:induction false} SqueezeBlanksSqueezes(s: string)
    ensures TabFree(SqueezeBlanks(s)) && SingleSpaced(SqueezeBlanks(s))
    decreases |s|
  {
    if s != "" {
      var k := if IsBlank(s[0]) then LeadingBlanks(s) else 1;
      BlanksAreBlank(s);
      SqueezeBlanksSqueezes(s[k..]);
      SqueezeBlanksStart(s[k..]);
      SpacedCons(if IsBlank(s[0]) then ' ' else s[0], SqueezeBlanks(s[k..]));
    }
  }

  /** Capping keeps the first character, and the second one after a first that is no newline. */
  lemma {:induction false} CapNewlinesStart(s: string)
    ensures s == "" <==> CapNewlines(s) == ""
    ensures s != "" ==> CapNewlines(s)[0] == s[0]
    ensures LeadingNewlines(s) == 1 && |CapNewlines(s)| > 1 ==> CapNewlines(s)[1] != '\n'
  {
    if s != "" {
      NewlinesAreNewlines(s);
      if |s| > 1 && LeadingNewlines(s) == 1 {
        assert CapNewlines(s) == [s[0]] + CapNewlines(s[1..]);
      }
    }
  }

  lemma InnerCons(c: char, s: string)
    requires Inner(s) && c != '\t'
    requires s == "" || (Apart(c, s[0]) && !(c == ' ' && s[0] == ' '))
    requires |s| < 2 || !(c == '\n' && s[0] == '\n' && s[1] == '\n')
    ensures Inner([c] + s)
  {
    TrimmedCons(c, s);
    var t := [c] + s;
    forall i | 0 < i < |t| ensures t[i] == s[i - 1] {}
  }

  lemma BreakCons(s: string)
    requires Inner(s) && (s == "" || (s[0] != '\n' && s[0] != ' '))
    ensures Inner("\n\n" + s)
  {
    InnerCons('\n', s);
    InnerCons('\n', ['\n'] + s);
    assert "\n\n" + s == ['\n'] + (['\n'] + s);
  }

  /** What follows a run of newlines in trimmed text starts with something visible. */
  lemma AfterNewlines(s: string)
    requires LinesTrimmed(s) && LeadingNewlines(s) > 0
    ensures var rest := s[LeadingNewlines(s)..]; rest == "" || (rest[0] != '\n' && rest[0] != ' ')
  {
    NewlinesAreNewlines(s);
    assert s[LeadingNewlines(s) - 1] == '\n';
  }

  lemma {:induction false} CapNewlinesCaps(s: string)
    requires TabFree(s) && LinesTrimmed(s) && SingleSpaced(s)
    ensures Inner(CapNewlines(s))
    decreases |s|
  {
    if s != "" {
      var k := LeadingNewlines(s);
      if k >= 3 {
        AfterNewlines(s);
        CapNewlinesCaps(s[k..]);
        CapNewlinesStart(s[k..]);
        BreakCons(CapNewlines(s[k..]));
      } else {
        CapNewlinesCaps(s[1..]);
        CapNewlinesStart(s[1..]);
        InnerCons(s[0], CapNewlines(s[1..]));
      }
    }
  }

  /** Stripping cuts at both ends and leaves no whitespace there. */
  lemma {:induction false} StripLeftIsASuffix(ws: char -> bool, s: string) returns (n: nat)
    ensures n <= |s| && StripLeft(ws, s) == s[n..]
    ensures n < |s| ==> !ws(s[n])
    ensures forall i :: 0 <= i < n ==> ws(s[i])
  {
    if s == "" || !ws(s[0]) {
      n := 0;
    } else {
      var m := StripLeftIsASuffix(ws, s[1..]);
      n := m + 1;
    }
  }

  lemma {:induction false} StripRightIsAPrefix(ws: char -> bool, s: string) returns (n: nat)
    ensures n <= |s| && StripRight(ws, s) == s[..n]
    ensures n > 0 ==> !ws(s[n - 1])
    ensures forall i :: n <= i < |s| ==> ws(s[i])
  {
    if s == "" || !ws(s[|s| - 1]) {
      n := |s|;
    } else {
      n := StripRightIsAPrefix(ws, s[..|s| - 1]);
    }
  }

  lemma StripKeepsInner(ws: char -> bool, s: string)
    requires Inner(s)
    ensures Normal(ws, Strip(ws, s))
  {
    var n := StripLeftIsASuffix(ws, s);
    var m := StripRightIsAPrefix(ws, s[n..]);
    var t := s[n..][..m];
    assert Strip(ws, s) == t;
    assert forall i :: 0 <= i < |t| ==> t[i] == s[n + i];
  }

  /**
   Text is brought into normal form whenever its first rewriting leaves no tab beside a
   newline: that is what the second rewriting needs to keep spaces away from newlines.
   A text without tabs is always such a text.
   */
  lemma NormaliseNormalises(ws: char -> bool, raw: string)
    ensures BlanksApart(TrimLines(raw)) ==> Normal(ws, Normalise(ws, raw))
    ensures BlanksApart(TrimLines(raw)) <==> LinesTrimmed(SqueezeBlanks(TrimLines(raw)))
    ensures TabFree(raw) ==> BlanksApart(TrimLines(raw))
  {
    var trimmed := TrimLines(raw);
    TrimLinesTrims(raw);
    SqueezeKeepsLinesIff(trimmed);
    SqueezeBlanksSqueezes(trimmed);
    if TabFree(raw) {
      TrimLinesAddsNoTab(raw);
      forall i | 0 <= i < |trimmed| - 1 ensures BlanksApartAt(trimmed, i) {}
    }
    if BlanksApart(trimmed) {
      CapNewlinesCaps(SqueezeBlanks(trimmed));
      StripKeepsInner(ws, CapNewlines(SqueezeBlanks(trimmed)));
    }
  }

  // ---------------------------------------------------------------- normal text stays as it is

  /** In trimmed text no spaces lead up to a newline. */
  lemma TrimmedLead(s: string)
    requires LinesTrimmed(s)
    ensures var k := LeadingSpaces(s); k < |s| && s[k] == '\n' ==> k == 0
  {
    SpacesAreSpaces(s);
    var k := LeadingSpaces(s);
    assert k > 0 ==> s[k - 1] == ' ';
  }

  lemma {:induction false} TrimLinesIdle(s: string)
    requires LinesTrimmed(s)
    ensures TrimLines(s) == s
    decreases |s|
  {
    if s != "" {
      TrimmedLead(s);
      TrimLinesIdle(s[1..]);
      if s[0] == '\n' {
        assert LeadingSpaces(s) == 0 && LeadingSpaces(s[1..]) == 0;
      }
    }
  }

  lemma {:induction false} SqueezeBlanksIdle(s: string)
    requires TabFree(s) && SingleSpaced(s)
    ensures SqueezeBlanks(s) == s
    decreases |s|
  {
    if s != "" {
      if IsBlank(s[0]) {
        assert LeadingBlanks(s) == 1 by { BlanksAreBlank(s); assert |s| > 1 ==> !IsBlank(s[1]); }
      }
      SqueezeBlanksIdle(s[1..]);
    }
  }

  lemma {:induction false} CapNewlinesIdle(s: string)
    requires NewlinesCapped(s)
    ensures CapNewlines(s) == s
    decreases |s|
  {
    if s != "" {
      NewlinesAreNewlines(s);
      assert |s| >= 3 ==> !(s[0] == '\n' && s[1] == '\n' && s[2] == '\n');
      CapNewlinesIdle(s[1..]);
    }
  }

  /** Text in normal form is left as it is, so normalising twice is normalising once. */
  lemma NormalTextIsAFixpoint(ws: char -> bool, s: string)
    requires Normal(ws, s)
    ensures Normalise(ws, s) == s
  {
    TrimLinesIdle(s);
    SqueezeBlanksIdle(s);
    CapNewlinesIdle(s);
  }

  lemma NormaliseIsIdempotent(ws: char -> bool, raw: string)
    requires TabFree(raw)
    ensures Normalise(ws, Normalise(ws, raw)) == Normalise(ws, raw)
  {
    NormaliseNormalises(ws, raw);
    NormalTextIsAFixpoint(ws, Normalise(ws, raw));
  }

  // ---------------------------------------------------------------- nothing but whitespace is lost

  /** The characters that are not whitespace, in order. */
  function Ink(ws: char -> bool, s: string): string {
    if s == "" then "" else (if ws(s[0]) then "" else [s[0]]) + Ink(ws, s[1..])
  }

  lemma InkHead(ws: char -> bool, s: string)
    requires s != ""
    ensures Ink(ws, s) == (if ws(s[0]) then "" else [s[0]]) + Ink(ws, s[1..])
  {
  }

  lemma {:induction false} InkOfConcat(ws: char -> bool, a: string, b: string)
    ensures Ink(ws, a + b) == Ink(ws, a) + Ink(ws, b)
  {
    if a == "" {
      assert a + b == b;
    } else {
      InkOfConcat(ws, a[1..], b);
      var head := if ws(a[0]) then "" else [a[0]];
      InkHead(ws, a);
      InkHead(ws, a + b);
      assert (a + b)[0] == a[0] && (a + b)[1..] == a[1..] + b;
      assert head + (Ink(ws, a[1..]) + Ink(ws, b)) == (head + Ink(ws, a[1..])) + Ink(ws, b);
    }
  }

  lemma {:induction false} NoInk(ws: char -> bool, s: string)
    requires forall i :: 0 <= i < |s| ==> ws(s[i])
    ensures Ink(ws, s) == ""
  {
    if s != "" {
      NoInk(ws, s[1..]);
    }
  }

  /** Whitespace in front of a text adds no ink. */
  lemma DropNoInk(ws: char -> bool, s: string, n: nat)
    requires n <= |s| && forall i :: 0 <= i < n ==> ws(s[i])
    ensures Ink(ws, s[n..]) == Ink(ws, s)
  {
    assert s == s[..n] + s[n..];
    InkOfConcat(ws, s[..n], s[n..]);
    NoInk(ws, s[..n]);
  }

  lemma {:induction false} TrimLinesKeepsInk(ws: char -> bool, s: string)
    requires Whitespace(ws)
    ensures Ink(ws, TrimLines(s)) == Ink(ws, s)
    decreases |s|
  {
    if s != "" {
      var k := LeadingSpaces(s);
      SpacesAreSpaces(s);
      if k < |s| && s[k] == '\n' {
        var rest := s[k + 1..];
        var tail := rest[LeadingSpaces(rest)..];
        SpacesAreSpaces(rest);
        DropNoInk(ws, rest, LeadingSpaces(rest));
        DropNoInk(ws, s, k + 1);
        TrimLinesKeepsInk(ws, tail);
        InkOfConcat(ws, "\n", TrimLines(tail));
      } else {
        TrimLinesKeepsInk(ws, s[1..]);
        InkOfConcat(ws, [s[0]], TrimLines(s[1..]));
      }
    }
  }

  lemma {:induction false} SqueezeBlanksKeepsInk(ws: char -> bool, s: string)
    requires Whitespace(ws)
    ensures Ink(ws, SqueezeBlanks(s)) == Ink(ws, s)
    decreases |s|
  {
    if s != "" {
      if IsBlank(s[0]) {
        var k := LeadingBlanks(s);
        BlanksAreBlank(s);
        DropNoInk(ws, s, k);
        SqueezeBlanksKeepsInk(ws, s[k..]);
        InkOfConcat(ws, " ", SqueezeBlanks(s[k..]));
      } else {
        SqueezeBlanksKeepsInk(ws, s[1..]);
        InkOfConcat(ws, [s[0]], SqueezeBlanks(s[1..]));
      }
    }
  }

  lemma {:induction false} CapNewlinesKeepsInk(ws: char -> bool, s: string)
    requires Whitespace(ws)
    ensures Ink(ws, CapNewlines(s)) == Ink(ws, s)
    decreases |s|
  {
    if s != "" {
      var k := LeadingNewlines(s);
      NewlinesAreNewlines(s);
      if k >= 3 {
        DropNoInk(ws, s, k);
        CapNewlinesKeepsInk(ws, s[k..]);
        NoInk(ws, "\n\n");
        InkOfConcat(ws, "\n\n", CapNewlines(s[k..]));
      } else {
        CapNewlinesKeepsInk(ws, s[1..]);
        InkOfConcat(ws, [s[0]], CapNewlines(s[1..]));
      }
    }
  }

  lemma StripKeepsInk(ws: char -> bool, s: string)
    ensures Ink(ws, Strip(ws, s)) == Ink(ws, s)
  {
    var n := StripLeftIsASuffix(ws, s);
    DropNoInk(ws, s, n);
    var t := s[n..];
    var m := StripRightIsAPrefix(ws, t);
    assert t == t[..m] + t[m..];
    InkOfConcat(ws, t[..m], t[m..]);
    NoInk(ws, t[m..]);
  }

  /** Normalising loses, adds and reorders nothing but whitespace, tabs or not. */
  lemma NormaliseKeepsInk(ws: char -> bool, raw: string)
    requires Whitespace(ws)
    ensures Ink(ws, Normalise(ws, raw)) == Ink(ws, raw)
  {
    TrimLinesKeepsInk(ws, raw);
    SqueezeBlanksKeepsInk(ws, TrimLines(raw));
    var s := CapNewlines(SqueezeBlanks(TrimLines(raw)));
    CapNewlinesKeepsInk(ws, SqueezeBlanks(TrimLines(raw)));
    StripKeepsInk(ws, s);
  }

  // ---------------------------------------------------------------- the parser's parts

  datatype Tag = Heading | Block | OtherTag

  /** " ".join(parts). */
  function JoinParts(parts: seq<string>): string {
    if parts == [] then ""
    else if |parts| == 1 then parts[0]
    else parts[0] + " " + JoinParts(parts[1..])
  }

  /** A part is its own text, and a space stands between any two neighbours and nowhere else. */
  lemma {:induction false} PartsAreSpaced(a: seq<string>, b: seq<string>)
    ensures a != [] && b != [] ==> JoinParts(a + b) == JoinParts(a) + " " + JoinParts(b)
    ensures |a| == 1 ==> JoinParts(a) == a[0]
    ensures a == [] ==> JoinParts(a) == ""
  {
    if a != [] && b != [] {
      assert (a + b)[1..] == a[1..] + b;
      if |a| == 1 {
        assert a + b == [a[0]] + b && (a + b)[1..] == b;
      } else {
        PartsAreSpaced(a[1..], b);
        assert a[0] + " " + (JoinParts(a[1..]) + " " + JoinParts(b)) == a[0] + " " + JoinParts(a[1..]) + " " + JoinParts(b);
      }
    }
  }

  class TextExtractor {
    const ws: char -> bool
    var parts: seq<string>

    constructor (ws: char -> bool)
      ensures parts == [] && this.ws == ws
    {
      this.ws := ws;
      parts := [];
    }

    method HandleStartTag(tag: Tag)
      modifies this
      ensures parts == old(parts) + (match tag case Heading => ["\n\n"] case Block => ["\n"] case OtherTag => [])
    {
      if tag == Heading {
        parts := parts + ["\n\n"];
      } else if tag == Block {
        parts := parts + ["\n"];
      }
    }

    method HandleData(data: string)
      modifies this
      ensures parts == old(parts) + if Strip(ws, data) == "" then [] else [Strip(ws, data)]
    {
      var stripped := Strip(ws, data);
      if stripped != "" {
        parts := parts + [stripped];
      }
    }

    /** The page's text is in normal form, and holds every visible character of the parts in order. */
    method Text() returns (text: string)
      requires Whitespace(ws)
      ensures Ink(ws, text) == Ink(ws, JoinParts(parts))
      ensures TabFree(JoinParts(parts)) ==> Normal(ws, text)
      ensures text == Normalise(ws, JoinParts(parts))
    {
      var raw := JoinParts(parts);
      raw := TrimLines(raw);
      raw := SqueezeBlanks(raw);
      raw := CapNewlines(raw);
      text := Strip(ws, raw);
      NormaliseKeepsInk(ws, JoinParts(parts));
      NormaliseNormalises(ws, JoinParts(parts));
    }
  }
}

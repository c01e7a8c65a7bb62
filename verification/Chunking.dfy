/** Splitting a page into chunks at blank lines, each under the page's title. */
module Chunking {
  import opened HtmlNormalForm
  import opened HtmlText

  /** text.split("\n\n"): separators taken leftmost first. */
  function Split(s: string): (parts: seq<string>)
    ensures |parts| > 0
  {
    if |s| < 2 then [s]
    else if s[0] == '\n' && s[1] == '\n' then [""] + Split(s[2..])
    else
      var rest := Split(s[1..]);
      [[s[0]] + rest[0]] + rest[1..]
  }

  function Join(parts: seq<string>): string
    requires |parts| > 0
  {
    if |parts| == 1 then parts[0] else parts[0] + "\n\n" + Join(parts[1..])
  }

  datatype Document = Document(fromConfluence: bool, sourceId: string, text: string)

  datatype Chunk = Chunk(documentId: string, index: nat, content: string)

  /** Title and section of the i-th chunk, counting from the first section. */
  function Sections(ws: char -> bool, title: string, sections: seq<string>, from: nat, sourceId: string): seq<Chunk> {
    if sections == [] then []
    else
      [Chunk(sourceId, from, title + "\n\n" + Strip(ws, sections[0]))]
      + Sections(ws, title, sections[1..], from + 1, sourceId)
  }

  function ChunkDocument(ws: char -> bool, doc: Document): seq<Chunk> {
    if !doc.fromConfluence then [Chunk(doc.sourceId, 0, doc.text)]
    else
      var parts := Split(doc.text);
      if |parts| == 1 then [Chunk(doc.sourceId, 0, doc.text)]
      else Sections(ws, parts[0], parts[1..], 0, doc.sourceId)
  }

  /** The document text of a page. */
  function PageText(title: string, body: string): string {
    title + "\n\n" + body
  }

  lemma {:induction false} JoinOfSplit(s: string)
    ensures Join(Split(s)) == s
  {
    if |s| >= 2 {
      if s[0] == '\n' && s[1] == '\n' {
        JoinOfSplit(s[2..]);
        assert Split(s)[1..] == Split(s[2..]);
        assert s == "" + "\n\n" + s[2..];
      } else {
        JoinOfSplit(s[1..]);
        var rest := Split(s[1..]);
        assert Split(s)[1..] == rest[1..];
        assert s == [s[0]] + s[1..];
      }
    }
  }

  predicate BlankLineAt(s: string, i: nat) {
    i + 1 < |s| && s[i] == '\n' && s[i + 1] == '\n'
  }

  /** A text is split at its first blank line and behind it again; one without stays whole. */
  lemma {:induction false} SplitsAtTheFirstBlankLine(s: string, i: nat)
    requires forall k :: 0 <= k < i ==> !BlankLineAt(s, k)
    ensures BlankLineAt(s, i) ==> Split(s) == [s[..i]] + Split(s[i + 2..])
    ensures i == |s| ==> Split(s) == [s]
  {
    if i == 0 || |s| < 2 {
      assert BlankLineAt(s, 0) ==> s[..0] == "";
      assert i == |s| ==> |s| < 2;
    } else if i <= |s| {
      assert !BlankLineAt(s, 0);
      forall k | 0 <= k < i - 1 ensures !BlankLineAt(s[1..], k) {
        assert !BlankLineAt(s, k + 1);
      }
      SplitsAtTheFirstBlankLine(s[1..], i - 1);
      assert s == [s[0]] + s[1..];
      if BlankLineAt(s, i) {
        assert BlankLineAt(s[1..], i - 1);
        assert s[1..][i - 1 + 2..] == s[i + 2..] && [s[0]] + s[1..][..i - 1] == s[..i];
      }
    }
  }

  /** A document from elsewhere, or one without a blank line, is one chunk as it is. */
  lemma UndividedDocuments(ws: char -> bool, doc: Document)
    ensures ChunkDocument(ws, doc) == [Chunk(doc.sourceId, 0, doc.text)]
         || (doc.fromConfluence && exists i: nat :: BlankLineAt(doc.text, i))
  {
    if doc.fromConfluence && forall i: nat :: !BlankLineAt(doc.text, i) {
      SplitsAtTheFirstBlankLine(doc.text, |doc.text|);
    }
  }

  predicate OneLine(s: string) {
    '\n' !in s
  }

  /** A title of one line is the first part of its page. */
  lemma {:induction false} TitleComesFirst(title: string, body: string)
    requires OneLine(title)
    ensures Split(PageText(title, body)) == [title] + Split(body)
  {
    var s := PageText(title, body);
    if title == "" {
      assert s[2..] == body;
    } else {
      assert s[1..] == PageText(title[1..], body);
      TitleComesFirst(title[1..], body);
      assert s[0] == title[0] != '\n';
      assert [title[0]] + title[1..] == title;
    }
  }

  /** What a chunk holds below its title. */
  function SectionOf(title: string, c: Chunk): string {
    if |c.content| < |title| + 2 then "" else c.content[|title| + 2..]
  }

  function SectionsOf(title: string, chunks: seq<Chunk>): seq<string> {
    if chunks == [] then [] else [SectionOf(title, chunks[0])] + SectionsOf(title, chunks[1..])
  }

  function StripAll(ws: char -> bool, parts: seq<string>): seq<string> {
    if parts == [] then [] else [Strip(ws, parts[0])] + StripAll(ws, parts[1..])
  }

  lemma {:induction false} SectionsComeBack(ws: char -> bool, title: string, sections: seq<string>, from: nat, sourceId: string)
    ensures var chunks := Sections(ws, title, sections, from, sourceId);
            && SectionsOf(title, chunks) == StripAll(ws, sections)
            && |chunks| == |sections|
            && forall i :: 0 <= i < |sections| ==>
                 chunks[i] == Chunk(sourceId, from + i, title + "\n\n" + Strip(ws, sections[i]))
  {
    if sections != [] {
      SectionsComeBack(ws, title, sections[1..], from + 1, sourceId);
      var c := Chunk(sourceId, from, title + "\n\n" + Strip(ws, sections[0]));
      assert SectionOf(title, c) == Strip(ws, sections[0]);
      assert Sections(ws, title, sections, from, sourceId)
          == [c] + Sections(ws, title, sections[1..], from + 1, sourceId);
    }
  }

  lemma StripShortens(ws: char -> bool, s: string)
    ensures |Strip(ws, s)| <= |s|
    ensures |Strip(ws, s)| == |s| ==> Strip(ws, s) == s
  {
    var left, right := StripSplits(ws, s);
    assert |s| == |left| + |Strip(ws, s)| + |right|;
  }

  predicate AllStripped(ws: char -> bool, parts: seq<string>) {
    forall i :: 0 <= i < |parts| ==> Strip(ws, parts[i]) == parts[i]
  }

  /** Stripping some part makes the joined text shorter, and never anything else. */
  lemma {:induction false} JoinOfStripped(ws: char -> bool, parts: seq<string>)
    requires parts != []
    ensures |StripAll(ws, parts)| == |parts| && |Join(StripAll(ws, parts))| <= |Join(parts)|
    ensures |Join(StripAll(ws, parts))| == |Join(parts)| <==> AllStripped(ws, parts)
    ensures AllStripped(ws, parts) ==> StripAll(ws, parts) == parts
  {
    StripShortens(ws, parts[0]);
    assert StripAll(ws, parts)[1..] == StripAll(ws, parts[1..]);
    if |parts| > 1 {
      JoinOfStripped(ws, parts[1..]);
      assert AllStripped(ws, parts) <==> Strip(ws, parts[0]) == parts[0] && AllStripped(ws, parts[1..]) by {
        assert forall i :: 0 < i < |parts| ==> parts[i] == parts[1..][i - 1];
      }
    }
  }

  /** A page put together again from its chunks. */
  function Rebuilt(ws: char -> bool, title: string, body: string, sourceId: string): string {
    Join([title] + SectionsOf(title, ChunkDocument(ws, Document(true, sourceId, PageText(title, body)))))
  }

  /**
   The chunks of a page are numbered from zero, one for each part of its body. Title and
   sections, separated by blank lines, are the page again if and only if no part of the
   body begins or ends with whitespace.
   */
  lemma ChunksRebuildThePageIff(ws: char -> bool, title: string, body: string, sourceId: string)
    requires OneLine(title)
    ensures var chunks := ChunkDocument(ws, Document(true, sourceId, PageText(title, body)));
            && |chunks| == |Split(body)|
            && forall i :: 0 <= i < |chunks| ==>
                 && chunks[i].index == i && chunks[i].documentId == sourceId
                 && chunks[i].content == title + "\n\n" + Strip(ws, Split(body)[i])
    ensures Rebuilt(ws, title, body, sourceId) == PageText(title, body) <==> AllStripped(ws, Split(body))
  {
    var page, parts := PageText(title, body), Split(body);
    TitleComesFirst(title, body);
    JoinOfSplit(body);
    SectionsComeBack(ws, title, parts, 0, sourceId);
    assert Split(page)[0] == title && Split(page)[1..] == parts;
    JoinOfStripped(ws, parts);
    var stripped := StripAll(ws, parts);
    assert ([title] + stripped)[1..] == stripped;
    assert Rebuilt(ws, title, body, sourceId) == title + "\n\n" + Join(stripped);
    assert page == title + "\n\n" + Join(parts);
  }

  // ---------------------------------------------------------------- when no part needs stripping

  /** No whitespace stands just before or just after a blank line. */
  predicate SeparatorsClean(ws: char -> bool, s: string) {
    forall i :: 0 <= i < |s| - 1 && s[i] == '\n' && s[i + 1] == '\n' ==>
      (i > 0 ==> !ws(s[i - 1])) && (i + 2 < |s| ==> !ws(s[i + 2]))
  }

  /** No part but the first begins with whitespace or is empty, and none ends with whitespace. */
  predicate CleanParts(ws: char -> bool, parts: seq<string>) {
    && (forall i :: 0 < i < |parts| ==> parts[i] != "" && !ws(parts[i][0]))
    && (forall i :: 0 <= i < |parts| ==> parts[i] == "" || !ws(parts[i][|parts[i]| - 1]))
  }

  /** A text inside a normal text: capped, and not ending in whitespace. */
  predicate Body(ws: char -> bool, s: string) {
    NewlinesCapped(s) && (s == "" || !ws(s[|s| - 1]))
  }

  lemma BodyFrom(ws: char -> bool, s: string, k: nat)
    requires Body(ws, s) && k < |s|
    ensures Body(ws, s[k..])
  {
    var t := s[k..];
    assert forall i :: 0 <= i < |t| ==> t[i] == s[k + i];
  }

  lemma {:induction false} FirstPart(s: string)
    ensures s == "" ==> Split(s) == [""]
    ensures Split(s)[0] == "" <==> s == "" || (|s| >= 2 && s[0] == '\n' && s[1] == '\n')
    ensures Split(s)[0] != "" ==> Split(s)[0][0] == s[0]
  {
  }

  predicate AtSeparator(s: string) {
    |s| >= 2 && s[0] == '\n' && s[1] == '\n'
  }

  lemma CleanAfterSeparator(ws: char -> bool, s: string)
    requires |s| > 2 && AtSeparator(s) && s[2] != '\n'
    ensures SeparatorsClean(ws, s) <==> !ws(s[2]) && SeparatorsClean(ws, s[2..])
  {
    var t := s[2..];
    forall i | 0 <= i < |t| ensures t[i] == s[i + 2] {}
    if !ws(s[2]) && SeparatorsClean(ws, t) {
      forall i | 0 <= i < |s| - 1 && s[i] == '\n' && s[i + 1] == '\n'
        ensures (i > 0 ==> !ws(s[i - 1])) && (i + 2 < |s| ==> !ws(s[i + 2]))
      {
        if i > 2 {
          assert t[i - 2] == '\n' && t[i - 1] == '\n' && t[i - 3] == s[i - 1];
        }
      }
    }
  }

  lemma CleanAfterChar(ws: char -> bool, s: string)
    requires s != "" && !AtSeparator(s)
    ensures SeparatorsClean(ws, s) <==> (AtSeparator(s[1..]) ==> !ws(s[0])) && SeparatorsClean(ws, s[1..])
  {
    var t := s[1..];
    forall i | 0 <= i < |t| ensures t[i] == s[i + 1] {}
    if (AtSeparator(t) ==> !ws(s[0])) && SeparatorsClean(ws, t) {
      forall i | 0 <= i < |s| - 1 && s[i] == '\n' && s[i + 1] == '\n'
        ensures (i > 0 ==> !ws(s[i - 1])) && (i + 2 < |s| ==> !ws(s[i + 2]))
      {
        assert i > 0 && t[i - 1] == '\n' && t[i] == '\n';
      }
    }
  }

  lemma PartsBehind(ws: char -> bool, first: string, parts: seq<string>)
    requires parts != [] && parts[0] != ""
    ensures CleanParts(ws, [first] + parts) <==>
            && (first == "" || !ws(first[|first| - 1])) && !ws(parts[0][0]) && CleanParts(ws, parts)
  {
    var all := [first] + parts;
    forall i | 0 < i < |all| ensures all[i] == parts[i - 1] {}
    if CleanParts(ws, all) {
      forall i | 0 <= i < |parts| ensures parts[i] != "" && !ws(parts[i][0]) && !ws(parts[i][|parts[i]| - 1]) {
        assert parts[i] == all[i + 1];
      }
      assert all[0] == first;
    } else if CleanParts(ws, parts) && !ws(parts[0][0]) {
      assert forall i :: 0 < i < |all| ==> all[i] != "" && !ws(all[i][0]);
      assert all[0] == first;
    }
  }

  lemma CharInFront(ws: char -> bool, c: char, parts: seq<string>)
    requires parts != []
    ensures CleanParts(ws, [[c] + parts[0]] + parts[1..]) <==> CleanParts(ws, parts) && (parts[0] == "" ==> !ws(c))
  {
    var all := [[c] + parts[0]] + parts[1..];
    forall i | 0 < i < |all| ensures all[i] == parts[i] {}
    assert parts[0] != "" ==> all[0][|all[0]| - 1] == parts[0][|parts[0]| - 1];
    if CleanParts(ws, all) {
      forall i | 0 <= i < |parts| ensures parts[i] == "" || !ws(parts[i][|parts[i]| - 1]) {
        assert i > 0 ==> parts[i] == all[i];
      }
      assert forall i :: 0 < i < |parts| ==> parts[i] == all[i];
    }
  }

  /** Inside a normal text the parts are clean exactly when the blank lines between them are. */
  lemma {:induction false} PartsAreCleanIff(ws: char -> bool, s: string)
    requires Whitespace(ws) && Body(ws, s)
    ensures CleanParts(ws, Split(s)) <==> SeparatorsClean(ws, s)
    ensures forall i :: 0 < i < |Split(s)| ==> Split(s)[i] != ""
  {
    if |s| >= 2 {
      if AtSeparator(s) {
        assert |s| > 2 && s[2] != '\n';
        BodyFrom(ws, s, 2);
        PartsAreCleanIff(ws, s[2..]);
        FirstPart(s[2..]);
        CleanAfterSeparator(ws, s);
        PartsBehind(ws, "", Split(s[2..]));
      } else {
        BodyFrom(ws, s, 1);
        PartsAreCleanIff(ws, s[1..]);
        FirstPart(s[1..]);
        CleanAfterChar(ws, s);
        CharInFront(ws, s[0], Split(s[1..]));
      }
    }
  }

  /** The parts of a normal text need no stripping exactly when no whitespace stands beside its blank lines. */
  lemma PartsAreStrippedIff(ws: char -> bool, text: string)
    requires Whitespace(ws) && Normal(ws, text)
    ensures AllStripped(ws, Split(text)) <==> SeparatorsClean(ws, text)
  {
    var parts := Split(text);
    PartsAreCleanIff(ws, text);
    FirstPart(text);
    forall i | 0 <= i < |parts| ensures Strip(ws, parts[i]) == parts[i] <==> Stripped(ws, parts[i]) {
      StripIdle(ws, parts[i]);
    }
    assert parts[0] != "" ==> !ws(parts[0][0]);
    if CleanParts(ws, parts) {
      forall i | 0 <= i < |parts| ensures Stripped(ws, parts[i]) {}
    }
    if AllStripped(ws, parts) {
      forall i | 0 <= i < |parts| ensures Stripped(ws, parts[i]) {}
    }
  }

  // ---------------------------------------------------------------- from the raw text to the chunks

  /**
   A page without tabs beside its line breaks is rebuilt from its chunks if and only if its
   normalised text has no whitespace beside a blank line.
   */
  lemma IngestedPageIsRebuiltIff(ws: char -> bool, title: string, raw: string, sourceId: string)
    requires Whitespace(ws) && OneLine(title) && TabsApart(Strip(ws, raw))
    ensures var body := Normalise(ws, raw);
            Rebuilt(ws, title, body, sourceId) == PageText(title, body) <==> SeparatorsClean(ws, body)
  {
    NormalIff(ws, raw);
    PartsAreStrippedIff(ws, Normalise(ws, raw));
    ChunksRebuildThePageIff(ws, title, Normalise(ws, raw), sourceId);
  }

  /** Spaces and newlines are the only whitespace of the text. */
  predicate PlainBlanks(ws: char -> bool, s: string) {
    forall c :: c in s && ws(c) ==> c == ' ' || c == '\n'
  }

  lemma {:induction false} TrimLinesAddsNoChar(s: string)
    ensures forall c :: c in TrimLines(s) ==> c in s || c == '\n'
    decreases |s|
  {
    if s != "" {
      if AtBreak(s) {
        BreakHead(s);
        TrimLinesAddsNoChar(AfterBreak(s));
        var rest := s[LeadingSpaces(s) + 1..];
        assert forall c :: c in rest[LeadingSpaces(rest)..] ==> c in rest;
        assert forall c :: c in rest ==> c in s;
      } else {
        PlainHead(s);
        TrimLinesAddsNoChar(s[1..]);
      }
    }
  }

  lemma {:induction false} SqueezeBlanksAddsNoChar(s: string)
    ensures forall c :: c in SqueezeBlanks(s) ==> c in s || c == ' '
    decreases |s|
  {
    if s != "" {
      SqueezeHead(s);
      SqueezeBlanksAddsNoChar(s[SqueezedSpan(s)..]);
    }
  }

  lemma {:induction false} CapNewlinesAddsNoChar(s: string)
    ensures forall c :: c in CapNewlines(s) ==> c in s || c == '\n'
    decreases |s|
  {
    if s != "" {
      CapHead(s);
      CapNewlinesAddsNoChar(s[CappedSpan(s)..]);
    }
  }

  lemma NormaliseAddsNoChar(ws: char -> bool, raw: string)
    ensures forall c :: c in Normalise(ws, raw) ==> c in raw || c == ' ' || c == '\n'
  {
    var trimmed := TrimLines(raw);
    var squeezed := SqueezeBlanks(trimmed);
    TrimLinesAddsNoChar(raw);
    SqueezeBlanksAddsNoChar(trimmed);
    CapNewlinesAddsNoChar(squeezed);
    var left, right := StripSplits(ws, CapNewlines(squeezed));
    assert forall c :: c in Strip(ws, CapNewlines(squeezed)) ==> c in CapNewlines(squeezed);
  }

  lemma PlainBeside(ws: char -> bool, raw: string, body: string, i: nat)
    requires PlainBlanks(ws, raw) && (forall c :: c in body ==> c in raw || c == ' ' || c == '\n')
    requires LinesTrimmed(body) && NewlinesCapped(body)
    requires i + 1 < |body| && body[i] == '\n' && body[i + 1] == '\n'
    ensures (i > 0 ==> !ws(body[i - 1])) && (i + 2 < |body| ==> !ws(body[i + 2]))
  {
    if i > 0 {
      assert body[i - 1] in body && Apart(body[i - 1], body[i]) && body[i - 1] != '\n';
    }
    if i + 2 < |body| {
      assert body[i + 2] in body && Apart(body[i + 1], body[i + 2]) && body[i + 2] != '\n';
    }
  }

  lemma PlainTextIsClean(ws: char -> bool, raw: string, body: string)
    requires PlainBlanks(ws, raw) && (forall c :: c in body ==> c in raw || c == ' ' || c == '\n')
    requires LinesTrimmed(body) && NewlinesCapped(body)
    ensures SeparatorsClean(ws, body)
  {
    forall i | 0 <= i < |body| - 1 && body[i] == '\n' && body[i + 1] == '\n'
      ensures (i > 0 ==> !ws(body[i - 1])) && (i + 2 < |body| ==> !ws(body[i + 2]))
    {
      PlainBeside(ws, raw, body, i);
    }
  }

  /** If spaces and newlines are all the whitespace of the raw text, the page is rebuilt. */
  lemma PlainPageIsRebuilt(ws: char -> bool, title: string, raw: string, sourceId: string)
    requires Whitespace(ws) && OneLine(title) && PlainBlanks(ws, raw)
    ensures var body := Normalise(ws, raw);
            Rebuilt(ws, title, body, sourceId) == PageText(title, body)
  {
    assert TabFree(raw) by { assert '\t' !in raw; }
    NormaliseNormalises(ws, raw);
    NormaliseAddsNoChar(ws, raw);
    PlainTextIsClean(ws, raw, Normalise(ws, raw));
    PartsAreStrippedIff(ws, Normalise(ws, raw));
    ChunksRebuildThePageIff(ws, title, Normalise(ws, raw), sourceId);
  }

  /** A no-break space at the end of a paragraph is normal text, and the chunks lose it. */
  lemma NoBreakSpaceIsLost(ws: char -> bool, title: string, sourceId: string)
    requires Whitespace(ws) && ws('\U{a0}') && !ws('a') && !ws('b') && OneLine(title)
    ensures var body := "a\U{a0}\n\nb";
            && Normalise(ws, body) == body && TabFree(body)
            && Rebuilt(ws, title, body, sourceId) != PageText(title, body)
  {
    var body := "a\U{a0}\n\nb";
    assert body[1] == '\U{a0}' && body[2] == '\n' && body[3] == '\n' && |body| == 5;
    assert Normal(ws, body);
    NormalTextIsAFixpoint(ws, body);
    StripOfPadded(ws, "", body, "");
    PartsAreStrippedIff(ws, body);
    ChunksRebuildThePageIff(ws, title, body, sourceId);
  }
}

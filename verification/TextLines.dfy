/** Which lines and paragraphs are kept apart, and which go together. */
module TextLines {
  import opened TextNormalization
  import opened TextSegmenter
  import opened TextSegmenterProofs

  const NOTHING := Pieces([], "")

  // ---------- what is finished has no influence on what follows ----------

  /** The pieces with others in front. */
  function Behind(front: seq<string>, p: Pieces): Pieces {
    p.(done := front + p.done)
  }

  lemma FlushedBehind(front: seq<string>, p: Pieces)
    ensures Flushed(Behind(front, p)) == Behind(front, Flushed(p))
  {
    assert front + p.done + [Strip(p.open)] == front + (p.done + [Strip(p.open)]);
  }

  lemma ExtendedBehind(front: seq<string>, p: Pieces, parts: seq<string>)
    ensures Extended(Behind(front, p), parts) == Behind(front, Extended(p, parts))
  {
    assert front + p.done + parts == front + (p.done + parts);
  }

  lemma AppendedBehind(t: Tables, chunk: nat, front: seq<string>, p: Pieces, unit: string)
    ensures Appended(t, chunk, Behind(front, p), unit) == Behind(front, Appended(t, chunk, p, unit))
  {
    var u := Strip(unit);
    FlushedBehind(front, p);
    var q := WithRoom(chunk, p, |u|);
    assert WithRoom(chunk, Behind(front, p), |u|) == Behind(front, q);
    FlushedBehind(front, q);
    ExtendedBehind(front, Flushed(q), SplitFrom(t, Strip(u), chunk));
  }

  lemma {:induction false} AddUnitsBehind(t: Tables, chunk: nat, flush: bool, front: seq<string>, p: Pieces,
                                          units: seq<string>)
    ensures AddUnits(t, chunk, flush, Behind(front, p), units) == Behind(front, AddUnits(t, chunk, flush, p, units))
    decreases |units|
  {
    if units != [] {
      AppendedBehind(t, chunk, front, p, units[0]);
      FlushedBehind(front, Appended(t, chunk, p, units[0]));
      AddUnitsBehind(t, chunk, flush, front, AddUnit(t, chunk, flush, p, units[0]), units[1..]);
    }
  }

  lemma AddLineBehind(t: Tables, chunk: nat, policy: Policy, flush: bool, front: seq<string>, p: Pieces, line: string)
    ensures AddLine(t, chunk, policy, flush, Behind(front, p), line)
         == Behind(front, AddLine(t, chunk, policy, flush, p, line))
  {
    AddUnitsBehind(t, chunk, flush, front, p, Units(t, line));
    FlushedBehind(front, AddUnits(t, chunk, flush, p, Units(t, line)));
  }

  lemma {:induction false} AddLinesBehind(t: Tables, chunk: nat, policy: Policy, flush: bool, front: seq<string>,
                                          p: Pieces, lines: seq<string>)
    ensures AddLines(t, chunk, policy, flush, Behind(front, p), lines)
         == Behind(front, AddLines(t, chunk, policy, flush, p, lines))
    decreases |lines|
  {
    if lines != [] {
      AddLineBehind(t, chunk, policy, flush, front, p, lines[0]);
      AddLinesBehind(t, chunk, policy, flush, front, AddLine(t, chunk, policy, flush, p, lines[0]), lines[1..]);
    }
  }

  lemma AddParagraphBehind(t: Tables, chunk: nat, policy: Policy, flush: bool, front: seq<string>, p: Pieces,
                           paragraph: string)
    ensures AddParagraph(t, chunk, policy, flush, Behind(front, p), paragraph)
         == Behind(front, AddParagraph(t, chunk, policy, flush, p, paragraph))
  {
    var lines := Lines(paragraph);
    FlushedBehind(front, p);
    if lines != [] {
      var logical := Logical(t, policy, chunk, lines);
      AddLinesBehind(t, chunk, policy, flush, front, p, logical);
      FlushedBehind(front, AddLines(t, chunk, policy, flush, p, logical));
    }
  }

  lemma {:induction false} AddLinesConcat(t: Tables, chunk: nat, policy: Policy, flush: bool, p: Pieces,
                                          a: seq<string>, b: seq<string>)
    ensures AddLines(t, chunk, policy, flush, p, a + b)
         == AddLines(t, chunk, policy, flush, AddLines(t, chunk, policy, flush, p, a), b)
    decreases |a|
  {
    if a == [] {
      assert a + b == b;
    } else {
      assert (a + b)[1..] == a[1..] + b;
      AddLinesConcat(t, chunk, policy, flush, AddLine(t, chunk, policy, flush, p, a[0]), a[1..], b);
    }
  }

  // ---------- lines of their own ----------

  /** A number, or whatever `what` admits, and then one of the marks, at the beginning of the line. */
  ghost predicate Numbered(line: string, what: char -> bool, marks: string) {
    exists n: nat :: NumberEnds(line, what, marks, n)
  }

  predicate NumberEnds(line: string, what: char -> bool, marks: string, n: nat) {
    1 <= n < |line| && line[n] in marks && forall i :: 0 <= i < n ==> what(line[i])
  }

  lemma {:induction false} NumberedIsFound(line: string, i: nat, n: nat, what: char -> bool, marks: string)
    requires i < n && NumberEnds(line, what, marks, n)
    ensures NumberedFrom(line, i, what, marks)
    decreases n - i
  {
    if i + 1 < n { NumberedIsFound(line, i + 1, n, what, marks); }
  }

  lemma {:induction false} FoundIsNumbered(line: string, i: nat, what: char -> bool, marks: string) returns (n: nat)
    requires i <= |line| && NumberedFrom(line, i, what, marks) && forall j :: 0 <= j < i ==> what(line[j])
    ensures NumberEnds(line, what, marks, n)
    decreases |line| - i
  {
    n := i + 1;
    if line[i + 1] !in marks { n := FoundIsNumbered(line, i + 1, what, marks); }
  }

  lemma NumberedExactlyWhen(line: string, what: char -> bool, marks: string)
    ensures NumberedFrom(line, 0, what, marks) <==> Numbered(line, what, marks)
  {
    if NumberedFrom(line, 0, what, marks) { var n := FoundIsNumbered(line, 0, what, marks); }
    if n: nat :| NumberEnds(line, what, marks, n) { NumberedIsFound(line, 0, n, what, marks); }
  }

  predicate IsNumber(c: char) {
    c in "一二三四五六七八九十"
  }

  ghost predicate ListItem(t: Tables, line: string) {
    (line != [] && line[0] in "-*•") || Numbered(line, t.isDecimal, ".)、")
    || Numbered(line, IsNumber, "、.")
  }

  /** The line ends with a full stop of its language, a closing mark, or three dots. */
  predicate Closed(line: string) {
    var n := |line|;
    n > 0 && (line[n - 1] in "。！？!?；;”’》」』）)]}】〉" || (n >= 3 && line[n - 3..] == "..."))
  }

  /** A short line that is not the end of a sentence; a very short one if it is not in English. */
  ghost predicate Title(line: string) {
    0 < |line| <= 24 && !Closed(line)
    && (|line| <= 8 || exists i :: 0 <= i < |line| && ('a' <= line[i] <= 'z' || 'A' <= line[i] <= 'Z'))
  }

  lemma ClosedExactlyWhen(line: string)
    ensures EndsSentence(line) <==> Closed(line)
  {
  }

  /** List items and titles stand alone, and nothing else does. */
  lemma StandsAloneExactlyWhen(t: Tables, line: string)
    requires Trimmed(line)
    ensures LooksLikeStandaloneLine(t, line) <==> ListItem(t, line) || Title(line)
  {
    NumberedExactlyWhen(line, t.isDecimal, ".)、");
    NumberedExactlyWhen(line, IsNumeral, "、.");
    NumeralsAlike(line);
    assert (exists c :: c in line && IsAsciiLetter(c)) <==> (exists i :: 0 <= i < |line| && IsAsciiLetter(line[i]));
    StripTrimmed(line);
    ClosedExactlyWhen(line);
  }

  lemma NumeralsAlike(line: string)
    ensures Numbered(line, IsNumeral, "、.") <==> Numbered(line, IsNumber, "、.")
  {
    assert forall n: nat :: NumberEnds(line, IsNumeral, "、.", n) <==> NumberEnds(line, IsNumber, "、.", n);
  }

  // ---------- logical lines ----------

  function Groups(t: Tables, chunk: int, lines: seq<string>): seq<string> {
    Flushed(GroupFrom(t, chunk, NOTHING, lines)).done
  }

  lemma GroupStepBehind(t: Tables, chunk: int, front: seq<string>, p: Pieces, line: string)
    ensures GroupStep(t, chunk, Behind(front, p), line) == Behind(front, GroupStep(t, chunk, p, line))
  {
    FlushedBehind(front, p);
    ExtendedBehind(front, Flushed(p), [line]);
    FlushedBehind(front, p.(open := JoinedOpen(t, p.open, line)));
  }

  lemma {:induction false} GroupsBehind(t: Tables, chunk: int, front: seq<string>, p: Pieces, lines: seq<string>)
    ensures GroupFrom(t, chunk, Behind(front, p), lines) == Behind(front, GroupFrom(t, chunk, p, lines))
    decreases |lines|
  {
    if lines != [] {
      GroupStepBehind(t, chunk, front, p, lines[0]);
      GroupsBehind(t, chunk, front, GroupStep(t, chunk, p, lines[0]), lines[1..]);
    }
  }

  lemma {:induction false} GroupFromConcat(t: Tables, chunk: int, p: Pieces, a: seq<string>, b: seq<string>)
    ensures GroupFrom(t, chunk, p, a + b) == GroupFrom(t, chunk, GroupFrom(t, chunk, p, a), b)
    decreases |a|
  {
    if a == [] {
      assert a + b == b;
    } else {
      assert (a + b)[1..] == a[1..] + b;
      GroupFromConcat(t, chunk, GroupStep(t, chunk, p, a[0]), a[1..], b);
    }
  }

  /** From a place where nothing is open, the lines are grouped as if nothing had been before. */
  lemma GroupsFromHere(t: Tables, chunk: int, p: Pieces, lines: seq<string>)
    requires p.open == []
    ensures Flushed(GroupFrom(t, chunk, p, lines)).done == p.done + Groups(t, chunk, lines)
  {
    assert Behind(p.done, NOTHING) == p;
    GroupsBehind(t, chunk, p.done, NOTHING, lines);
    FlushedBehind(p.done, GroupFrom(t, chunk, NOTHING, lines));
  }

  lemma GroupOneMore(t: Tables, chunk: int, p: Pieces, lines: seq<string>, line: string)
    ensures GroupFrom(t, chunk, p, lines + [line]) == GroupStep(t, chunk, GroupFrom(t, chunk, p, lines), line)
  {
    GroupFromConcat(t, chunk, p, lines, [line]);
    assert [line][1..] == [];
  }

  /** A list item or a title is a logical line of its own, and the lines before and behind it are grouped as if the
      others were not there. */
  lemma StandaloneLinesSplitTheGroups(t: Tables, chunk: int, before: seq<string>, line: string, behind: seq<string>)
    requires Trimmed(line) && (ListItem(t, line) || Title(line))
    ensures Groups(t, chunk, before + [line] + behind)
         == Groups(t, chunk, before) + [line] + Groups(t, chunk, behind)
  {
    StandsAloneExactlyWhen(t, line);
    var p := GroupFrom(t, chunk, NOTHING, before);
    GroupOneMore(t, chunk, NOTHING, before, line);
    GroupFromConcat(t, chunk, NOTHING, before + [line], behind);
    GroupsFromHere(t, chunk, GroupStep(t, chunk, p, line), behind);
  }

  function Joined(t: Tables, lines: seq<string>): string {
    JoinFrom(t, "", lines)
  }

  lemma {:induction false} JoinOneMore(t: Tables, value: string, lines: seq<string>, line: string)
    ensures JoinFrom(t, value, lines + [line]) == JoinStep(t, JoinFrom(t, value, lines), line)
    decreases |lines|
  {
    if lines == [] {
      assert lines + [line] == [line] && [line][1..] == [];
    } else {
      assert (lines + [line])[1..] == lines[1..] + [line];
      JoinOneMore(t, JoinStep(t, value, lines[0]), lines[1..], line);
    }
  }

  /** The lines up to `j` are enough for a logical line, and the last of them ends a sentence. */
  predicate Due(t: Tables, chunk: int, lines: seq<string>, j: nat)
    requires j < |lines|
  {
    Closed(lines[j]) && |Joined(t, lines[..j + 1])| >= 20 && |Joined(t, lines[..j + 1])| >= chunk * 45 / 100
  }

  ghost predicate Flowing(t: Tables, lines: seq<string>) {
    forall i :: 0 <= i < |lines| ==> !ListItem(t, lines[i]) && !Title(lines[i])
  }

  ghost predicate NotDue(t: Tables, chunk: int, lines: seq<string>) {
    forall j :: 0 <= j < |lines| ==> !Due(t, chunk, lines, j)
  }

  lemma NotDueBefore(t: Tables, chunk: int, lines: seq<string>, n: nat)
    requires n <= |lines| && forall j :: 0 <= j < n ==> !Due(t, chunk, lines, j)
    ensures NotDue(t, chunk, lines[..n])
  {
    forall j | 0 <= j < n ensures !Due(t, chunk, lines[..n], j) {
      assert lines[..n][..j + 1] == lines[..j + 1] && lines[..n][j] == lines[j];
      assert !Due(t, chunk, lines, j);
    }
  }

  lemma OpenIsJoined(t: Tables, open: string, line: string)
    requires Trimmed(open) && line != [] && Trimmed(line)
    ensures JoinedOpen(t, open, line) == JoinStep(t, open, line)
  {
    StripTrimmed(open);
    StripTrimmed(line);
    if open != [] {
      assert [open, line][1..] == [line] && [line][1..] == [];
      assert JoinStep(t, "", open) == open;
      assert JoinFrom(t, "", [open, line]) == JoinFrom(t, open, [line]);
      assert JoinFrom(t, open, [line]) == JoinFrom(t, JoinStep(t, open, line), []);
    }
  }

  lemma {:induction false} JoinedIsTrimmed(t: Tables, lines: seq<string>)
    requires Tidy(lines)
    ensures Trimmed(Joined(t, lines)) && (lines != [] ==> Joined(t, lines) != [])
  {
    if lines != [] {
      var front, line := lines[..|lines| - 1], lines[|lines| - 1];
      JoinedIsTrimmed(t, front);
      JoinOneMore(t, "", front, line);
      assert front + [line] == lines;
      StripTrimmed(line);
      JoinStepKeeps(t, Joined(t, front), line);
    }
  }

  /** Lines that flow into each other are being collected, joined, until they are due. */
  lemma {:induction false} FlowingLinesAreCollected(t: Tables, chunk: int, lines: seq<string>)
    requires Tidy(lines) && Flowing(t, lines) && NotDue(t, chunk, lines)
    ensures GroupFrom(t, chunk, NOTHING, lines) == Pieces([], Joined(t, lines))
  {
    if lines != [] {
      var n := |lines| - 1;
      var front, line := lines[..n], lines[n];
      assert front + [line] == lines && lines[..n + 1] == lines;
      NotDueBefore(t, chunk, lines, n);
      FlowingLinesAreCollected(t, chunk, front);
      LineIsCollected(t, chunk, front, line);
      assert !Due(t, chunk, lines, n);
      GroupOneMore(t, chunk, NOTHING, front, line);
    }
  }

  lemma LineIsCollected(t: Tables, chunk: int, front: seq<string>, line: string)
    requires Tidy(front) && line != [] && Trimmed(line) && !ListItem(t, line) && !Title(line)
    ensures var joined := Pieces([], Joined(t, front + [line]));
            GroupStep(t, chunk, Pieces([], Joined(t, front)), line)
            == if Due(t, chunk, front + [line], |front|) then Flushed(joined) else joined
  {
    var lines := front + [line];
    assert lines[..|front| + 1] == lines;
    StandsAloneExactlyWhen(t, line);
    JoinedIsTrimmed(t, front);
    OpenIsJoined(t, Joined(t, front), line);
    JoinOneMore(t, "", front, line);
    ClosedExactlyWhen(line);
  }

  /** Lines that flow into each other, none of which is due, are one logical line. */
  lemma FlowingLinesAreJoined(t: Tables, chunk: int, lines: seq<string>)
    requires Tidy(lines) && lines != [] && Flowing(t, lines) && NotDue(t, chunk, lines)
    ensures Groups(t, chunk, lines) == [Joined(t, lines)]
  {
    FlowingLinesAreCollected(t, chunk, lines);
    JoinedIsFlushed(t, lines);
  }

  lemma DueLineFlushes(t: Tables, chunk: int, front: seq<string>, line: string)
    requires Tidy(front) && line != [] && Trimmed(line) && !ListItem(t, line) && !Title(line)
    requires Due(t, chunk, front + [line], |front|)
    ensures GroupStep(t, chunk, Pieces([], Joined(t, front)), line) == Pieces([Joined(t, front + [line])], "")
  {
    LineIsCollected(t, chunk, front, line);
    JoinedIsFlushed(t, front + [line]);
  }

  lemma JoinedIsFlushed(t: Tables, lines: seq<string>)
    requires Tidy(lines) && lines != []
    ensures Flushed(Pieces([], Joined(t, lines))) == Pieces([Joined(t, lines)], "")
  {
    JoinedIsTrimmed(t, lines);
    StripTrimmed(Joined(t, lines));
  }

  lemma GroupThenRest(t: Tables, chunk: int, first: seq<string>, group: string, rest: seq<string>)
    requires GroupFrom(t, chunk, NOTHING, first) == Pieces([group], "")
    ensures Groups(t, chunk, first + rest) == [group] + Groups(t, chunk, rest)
  {
    GroupFromConcat(t, chunk, NOTHING, first, rest);
    GroupsFromHere(t, chunk, Pieces([group], ""), rest);
  }

  /** The first line that is due ends the logical line, and the lines behind it are grouped as if nothing had been
      before. */
  lemma DueLinesEndTheGroup(t: Tables, chunk: int, before: seq<string>, line: string, behind: seq<string>)
    requires Tidy(before) && Flowing(t, before) && NotDue(t, chunk, before)
    requires line != [] && Trimmed(line) && !ListItem(t, line) && !Title(line)
    requires Due(t, chunk, before + [line], |before|)
    ensures Groups(t, chunk, before + [line] + behind) == [Joined(t, before + [line])] + Groups(t, chunk, behind)
  {
    FlowingLinesAreCollected(t, chunk, before);
    DueLineFlushes(t, chunk, before, line);
    GroupOneMore(t, chunk, NOTHING, before, line);
    GroupThenRest(t, chunk, before + [line], Joined(t, before + [line]), behind);
  }

  /** The logical lines of the automatic policy are these groups. */
  lemma AutomaticLinesAreTheGroups(t: Tables, chunk: int, lines: seq<string>)
    requires Tidy(lines)
    ensures Logical(t, Auto, chunk, lines) == Groups(t, chunk, lines)
  {
    if lines == [] {
      assert Strip("") == "";
    } else {
      var p := GroupFrom(t, chunk, NOTHING, lines);
      GroupKeeps(t, chunk, NOTHING, lines);
      FlushedKeeps(p);
      NonSpaceConcat(lines[0], Concat(lines[1..]));
      assert lines[0] != [] && !IsSpace(lines[0][0]);
      assert Held(Pieces([], "")) == [] && Held(Flushed(p)) != [];
    }
  }

  // ---------- segments of their own ----------

  /** The segments of a line that shares none with another. */
  function SegmentsOfLine(t: Tables, chunk: nat, flush: bool, line: string): seq<string> {
    Flushed(AddUnits(t, chunk, flush, NOTHING, Units(t, line))).done
  }

  function SegmentsOfLines(t: Tables, chunk: nat, flush: bool, lines: seq<string>): seq<string> {
    if lines == [] then []
    else SegmentsOfLine(t, chunk, flush, lines[0]) + SegmentsOfLines(t, chunk, flush, lines[1..])
  }

  lemma {:induction false} PreservedLines(t: Tables, chunk: nat, flush: bool, done: seq<string>, lines: seq<string>)
    ensures AddLines(t, chunk, Preserve, flush, Pieces(done, ""), lines)
         == Pieces(done + SegmentsOfLines(t, chunk, flush, lines), "")
    decreases |lines|
  {
    if lines == [] {
      assert done + [] == done;
    } else {
      var own := SegmentsOfLine(t, chunk, flush, lines[0]);
      var rest := SegmentsOfLines(t, chunk, flush, lines[1..]);
      FirstLineFromHere(t, chunk, flush, done, lines);
      PreservedLines(t, chunk, flush, done + own, lines[1..]);
      assert done + own + rest == done + (own + rest);
    }
  }

  lemma FirstLineFromHere(t: Tables, chunk: nat, flush: bool, done: seq<string>, lines: seq<string>)
    requires lines != []
    ensures var own := SegmentsOfLine(t, chunk, flush, lines[0]);
            AddLines(t, chunk, Preserve, flush, Pieces(done, ""), lines)
            == AddLines(t, chunk, Preserve, flush, Pieces(done + own, ""), lines[1..])
  {
    LineFromHere(t, chunk, flush, Pieces(done, ""), lines[0]);
  }

  lemma LineFromHere(t: Tables, chunk: nat, flush: bool, p: Pieces, line: string)
    requires p.open == []
    ensures Flushed(AddUnits(t, chunk, flush, p, Units(t, line)))
         == Pieces(p.done + SegmentsOfLine(t, chunk, flush, line), "")
  {
    assert Behind(p.done, NOTHING) == p;
    AddUnitsBehind(t, chunk, flush, p.done, NOTHING, Units(t, line));
    FlushedBehind(p.done, AddUnits(t, chunk, flush, NOTHING, Units(t, line)));
  }

  /** Under the policy that preserves lines, no segment spans two of them. */
  lemma PreservedLinesStayApart(t: Tables, chunk: nat, flush: bool, paragraph: string)
    ensures AddParagraph(t, chunk, Preserve, flush, NOTHING, paragraph)
         == Pieces(SegmentsOfLines(t, chunk, flush, Lines(paragraph)), "")
  {
    PreservedLines(t, chunk, flush, [], Lines(paragraph));
    assert Strip("") == "";
  }

  /** Under every policy a list item or a title ends its segment: what follows is segmented as if nothing had been
      before. */
  lemma StandaloneLinesEndTheirSegment(t: Tables, chunk: nat, policy: Policy, flush: bool, before: seq<string>,
                                       line: string, behind: seq<string>)
    requires Trimmed(line) && (ListItem(t, line) || Title(line))
    ensures var done := Flushed(AddLines(t, chunk, policy, flush, NOTHING, before + [line])).done;
            AddLines(t, chunk, policy, flush, NOTHING, before + [line] + behind)
            == Behind(done, AddLines(t, chunk, policy, flush, NOTHING, behind))
  {
    StandsAloneExactlyWhen(t, line);
    var p := AddLines(t, chunk, policy, flush, NOTHING, before);
    AddLinesConcat(t, chunk, policy, flush, NOTHING, before, [line]);
    assert [line][1..] == [];
    var q := AddLine(t, chunk, policy, flush, p, line);
    assert q.open == [] && Strip("") == "" && Flushed(q) == q;
    AddLinesConcat(t, chunk, policy, flush, NOTHING, before + [line], behind);
    assert Behind(q.done, NOTHING) == q;
    AddLinesBehind(t, chunk, policy, flush, q.done, NOTHING, behind);
  }

  /** The segments of a paragraph that shares none with another. */
  function SegmentsOfParagraph(t: Tables, chunk: nat, policy: Policy, flush: bool, paragraph: string): seq<string> {
    Flushed(AddParagraph(t, chunk, policy, flush, NOTHING, paragraph)).done
  }

  function SegmentsOfParagraphs(t: Tables, chunk: nat, policy: Policy, flush: bool, paragraphs: seq<string>)
    : seq<string>
  {
    if paragraphs == [] then []
    else
      SegmentsOfParagraph(t, chunk, policy, flush, paragraphs[0])
      + SegmentsOfParagraphs(t, chunk, policy, flush, paragraphs[1..])
  }

  lemma {:induction false} ParagraphsFromHere(t: Tables, chunk: nat, policy: Policy, flush: bool, done: seq<string>,
                                              paragraphs: seq<string>)
    ensures AddParagraphs(t, chunk, policy, flush, Pieces(done, ""), paragraphs)
         == Pieces(done + SegmentsOfParagraphs(t, chunk, policy, flush, paragraphs), "")
    decreases |paragraphs|
  {
    if paragraphs == [] {
      assert done + [] == done;
    } else {
      var own := SegmentsOfParagraph(t, chunk, policy, flush, paragraphs[0]);
      var rest := SegmentsOfParagraphs(t, chunk, policy, flush, paragraphs[1..]);
      FirstParagraphFromHere(t, chunk, policy, flush, done, paragraphs);
      ParagraphsFromHere(t, chunk, policy, flush, done + own, paragraphs[1..]);
      assert done + own + rest == done + (own + rest);
    }
  }

  lemma FirstParagraphFromHere(t: Tables, chunk: nat, policy: Policy, flush: bool, done: seq<string>,
                               paragraphs: seq<string>)
    requires paragraphs != []
    ensures var own := SegmentsOfParagraph(t, chunk, policy, flush, paragraphs[0]);
            AddParagraphs(t, chunk, policy, flush, Pieces(done, ""), paragraphs)
            == AddParagraphs(t, chunk, policy, flush, Pieces(done + own, ""), paragraphs[1..])
  {
    ParagraphFromHere(t, chunk, policy, flush, done, paragraphs[0]);
  }

  lemma ParagraphFromHere(t: Tables, chunk: nat, policy: Policy, flush: bool, done: seq<string>, paragraph: string)
    ensures AddParagraph(t, chunk, policy, flush, Pieces(done, ""), paragraph)
         == Pieces(done + SegmentsOfParagraph(t, chunk, policy, flush, paragraph), "")
  {
    assert Behind(done, NOTHING) == Pieces(done, "");
    AddParagraphBehind(t, chunk, policy, flush, done, NOTHING, paragraph);
    assert Strip("") == "";
  }

  /** No segment spans two paragraphs: each paragraph has its own. */
  lemma ParagraphsStayApart(t: Tables, text: string, maxTextLength: int, segmentLength: int, policy: Policy,
                            flush: bool)
    requires Normalized(text) != []
    ensures Segments(t, text, maxTextLength, segmentLength, policy, flush)
         == SegmentsOfParagraphs(t, if segmentLength < 40 then 40 else segmentLength, policy, flush,
                                 Paragraphs(Kept(text, maxTextLength)))
  {
    FallbackIsNeverUsed(t, text, maxTextLength, segmentLength, policy, flush);
    ParagraphsFromHere(t, ChunkSize(segmentLength), policy, flush, [], Paragraphs(Kept(text, maxTextLength)));
  }

  // ---------- what is asked for ----------

  /** What is kept is a beginning of the normalised text, all of it if it is no longer than allowed, and never
      nothing. */
  lemma KeptIsABeginning(text: string, maxTextLength: int)
    ensures var kept, all := Kept(text, maxTextLength), Normalized(text);
            && kept <= all && (|all| <= maxTextLength ==> kept == all)
            && (kept != all ==> |kept| == if maxTextLength < 1 then 1 else maxTextLength)
  {
  }

  /** The ASCII letters have their usual small letters. */
  ghost predicate LowersAscii(t: Tables) {
    forall c :: 'a' <= c <= 'z' ==> t.lower(c) == [c] && t.lower(Capital(c)) == [c]
  }

  function Capital(c: char): char
    requires 'a' <= c <= 'z'
  {
    (c as int - 32) as char
  }

  /** The name in whatever case. */
  ghost predicate Spells(s: string, name: string)
    requires forall i :: 0 <= i < |name| ==> 'a' <= name[i] <= 'z'
  {
    |s| == |name| && forall i :: 0 <= i < |name| ==> s[i] == name[i] || s[i] == Capital(name[i])
  }

  lemma {:induction false} SpelledIsLowered(t: Tables, s: string, name: string)
    requires LowersAscii(t) && (forall i :: 0 <= i < |name| ==> 'a' <= name[i] <= 'z') && Spells(s, name)
    ensures LowerAll(t, s) == name
  {
    if s != [] {
      assert forall i :: 0 <= i < |name| - 1 ==> s[1..][i] == s[i + 1] && name[1..][i] == name[i + 1];
      SpelledIsLowered(t, s[1..], name[1..]);
      assert s[0] == name[0] || s[0] == Capital(name[0]);
      assert [name[0]] + name[1..] == name;
    }
  }

  /** The two policies that have to be asked for, in whatever case and with white space around, and what anything else
      stands for. */
  lemma PoliciesByName(t: Tables, s: string)
    requires LowersAscii(t)
    ensures Spells(Strip(s), "preserve") ==> ParsePolicy(t, s) == Preserve
    ensures Spells(Strip(s), "space") ==> ParsePolicy(t, s) == Space
    ensures Spells(Strip(s), "auto") || s == "" ==> ParsePolicy(t, s) == Auto
    ensures LowerAll(t, Strip(s)) !in {"preserve", "space"} ==> ParsePolicy(t, s) == Auto
  {
    assert Strip("") == "";
    if Spells(Strip(s), "preserve") { SpelledIsLowered(t, Strip(s), "preserve"); }
    if Spells(Strip(s), "space") { SpelledIsLowered(t, Strip(s), "space"); }
    if Spells(Strip(s), "auto") { SpelledIsLowered(t, Strip(s), "auto"); }
    if s == "" { SpelledIsLowered(t, "auto", "auto"); }
  }
}

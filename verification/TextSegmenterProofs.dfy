/** What the segmenter guarantees: no character but white space is lost, added or moved, and every segment fits. */
module TextSegmenterProofs {
  import opened TextNormalization
  import opened TextSegmenter

  /** Everything collected so far that is not white space. */
  function Held(p: Pieces): string {
    NonSpace(Concat(p.done)) + NonSpace(p.open)
  }

  predicate SoftEnd(s: string) {
    s != [] && s[|s| - 1] in SOFT_PUNCT
  }

  /** Non-empty, trimmed, and at most one character over the chunk size, that one being soft punctuation. */
  predicate Fits(s: string, chunk: nat) {
    s != [] && Trimmed(s) && |s| <= chunk + 1 && (|s| == chunk + 1 ==> SoftEnd(s))
  }

  ghost predicate AllFit(parts: seq<string>, chunk: nat) {
    forall i :: 0 <= i < |parts| ==> Fits(parts[i], chunk)
  }

  ghost predicate Sound(p: Pieces, chunk: nat) {
    AllFit(p.done, chunk) && Trimmed(p.open) && |p.open| <= chunk
  }

  // ---------- joining and grouping lines ----------

  lemma GluedKeeps(a: string, b: string)
    ensures NonSpace(a + b) == NonSpace(a) + NonSpace(b) && NonSpace(a + " " + b) == NonSpace(a) + NonSpace(b)
  {
    NonSpaceConcat(a, b);
    NonSpaceConcat(a, " ");
    assert NonSpace(" ") == [];
    assert NonSpace(a + " ") == NonSpace(a);
    NonSpaceConcat(a + " ", b);
  }

  lemma GluedTrimmed(a: string, b: string)
    requires a != [] && Trimmed(a) && b != [] && Trimmed(b)
    ensures Trimmed(a + b) && Trimmed(a + " " + b)
  {
    var spaced := a + " " + b;
    assert spaced[0] == a[0] && spaced[|spaced| - 1] == b[|b| - 1];
  }

  lemma JoinStepKeeps(t: Tables, value: string, line: string)
    requires Trimmed(value)
    ensures NonSpace(JoinStep(t, value, line)) == NonSpace(value) + NonSpace(line)
    ensures Trimmed(JoinStep(t, value, line))
  {
    StripKeeps(line);
    var l := Strip(line);
    if l == [] {
      assert NonSpace(value) + NonSpace(line) == NonSpace(value);
    } else if value == [] {
      assert NonSpace(value) + NonSpace(line) == NonSpace(line);
    } else {
      GluedKeeps(value, l);
      GluedTrimmed(value, l);
    }
  }

  lemma Assoc(a: string, b: string, c: string)
    ensures a + b + c == a + (b + c)
  {
  }

  lemma {:induction false} JoinKeeps(t: Tables, value: string, lines: seq<string>)
    requires Trimmed(value)
    ensures NonSpace(JoinFrom(t, value, lines)) == NonSpace(value) + NonSpace(Concat(lines))
    ensures Trimmed(JoinFrom(t, value, lines))
    decreases |lines|
  {
    if lines != [] {
      var next := JoinStep(t, value, lines[0]);
      JoinStepKeeps(t, value, lines[0]);
      JoinKeeps(t, next, lines[1..]);
      NonSpaceConcat(lines[0], Concat(lines[1..]));
      Assoc(NonSpace(value), NonSpace(lines[0]), NonSpace(Concat(lines[1..])));
      assert JoinFrom(t, value, lines) == JoinFrom(t, next, lines[1..]);
    }
  }

  lemma FlushedKeeps(p: Pieces)
    ensures Held(Flushed(p)) == Held(p)
    ensures Tidy(p.done) ==> Tidy(Flushed(p).done)
  {
    StripKeeps(p.open);
    ConcatOne(p.done, Strip(p.open));
  }

  lemma JoinedOpenKeeps(t: Tables, open: string, line: string)
    requires Trimmed(open) && Trimmed(line)
    ensures NonSpace(JoinedOpen(t, open, line)) == NonSpace(open) + NonSpace(line)
    ensures Trimmed(JoinedOpen(t, open, line))
  {
    if open != [] {
      JoinKeeps(t, "", [open, line]);
      ConcatOne([open], line);
      assert [open] + [line] == [open, line];
      assert Concat([open]) == open;
    }
  }

  lemma JoinedKeeps(t: Tables, p: Pieces, line: string)
    requires Trimmed(p.open) && Trimmed(line)
    ensures var joined := p.(open := JoinedOpen(t, p.open, line));
            Held(joined) == Held(p) + NonSpace(line) && Trimmed(joined.open)
  {
    JoinedOpenKeeps(t, p.open, line);
    Assoc(NonSpace(Concat(p.done)), NonSpace(p.open), NonSpace(line));
  }

  lemma StandaloneKeeps(p: Pieces, line: string)
    requires Tidy(p.done) && line != [] && Trimmed(line)
    ensures var q := Extended(Flushed(p), [line]);
            Held(q) == Held(p) + NonSpace(line) && Tidy(q.done) && q.open == []
  {
    var f := Flushed(p);
    FlushedKeeps(p);
    ConcatOne(f.done, line);
    assert Held(f) == NonSpace(Concat(f.done));
    assert Held(Extended(f, [line])) == NonSpace(Concat(f.done + [line]));
  }

  lemma GroupStepKeeps(t: Tables, chunk: int, p: Pieces, line: string)
    requires Tidy(p.done) && Trimmed(p.open) && line != [] && Trimmed(line)
    ensures Held(GroupStep(t, chunk, p, line)) == Held(p) + NonSpace(line)
    ensures Tidy(GroupStep(t, chunk, p, line).done) && Trimmed(GroupStep(t, chunk, p, line).open)
  {
    StandaloneKeeps(p, line);
    JoinedKeeps(t, p, line);
    FlushedKeeps(p.(open := JoinedOpen(t, p.open, line)));
  }

  lemma {:induction false} GroupKeeps(t: Tables, chunk: int, p: Pieces, lines: seq<string>)
    requires Tidy(p.done) && Trimmed(p.open) && Tidy(lines)
    ensures Held(GroupFrom(t, chunk, p, lines)) == Held(p) + NonSpace(Concat(lines))
    ensures Tidy(GroupFrom(t, chunk, p, lines).done)
    decreases |lines|
  {
    if lines != [] {
      GroupStepKeeps(t, chunk, p, lines[0]);
      GroupKeeps(t, chunk, GroupStep(t, chunk, p, lines[0]), lines[1..]);
      NonSpaceConcat(lines[0], Concat(lines[1..]));
      Assoc(Held(p), NonSpace(lines[0]), NonSpace(Concat(lines[1..])));
    }
  }

  /** Whatever the newline policy, the logical lines hold the text of the lines, in order. */
  lemma LogicalLinesKeepTheText(t: Tables, policy: Policy, chunk: int, lines: seq<string>)
    requires Tidy(lines)
    ensures NonSpace(Concat(Logical(t, policy, chunk, lines))) == NonSpace(Concat(lines))
  {
    match policy
    case Preserve =>
    case Space =>
      JoinKeeps(t, "", lines);
      assert Concat([JoinFrom(t, "", lines)]) == JoinFrom(t, "", lines);
    case Auto =>
      var p := GroupFrom(t, chunk, Pieces([], ""), lines);
      GroupKeeps(t, chunk, Pieces([], ""), lines);
      FlushedKeeps(p);
      assert Held(Flushed(p)) == NonSpace(Concat(Flushed(p).done));
  }

  // ---------- sentences ----------

  lemma PieceKeeps(s: string)
    ensures NonSpace(Concat(Piece(s))) == NonSpace(s) && Tidy(Piece(s))
  {
    StripKeeps(s);
    if Strip(s) != [] { assert Concat([Strip(s)]) == Strip(s); }
  }

  lemma PieceThen(s: string, rest: seq<string>)
    ensures NonSpace(Concat(Piece(s) + rest)) == NonSpace(s) + NonSpace(Concat(rest))
  {
    PieceKeeps(s);
    ConcatConcat(Piece(s), rest);
    NonSpaceConcat(Concat(Piece(s)), Concat(rest));
  }

  lemma {:induction false} UnitsFromKeep(t: Tables, text: string, start: nat, i: nat)
    requires start <= i <= |text|
    ensures NonSpace(Concat(UnitsFrom(t, text, start, i))) == NonSpace(text[start..])
    ensures Tidy(UnitsFrom(t, text, start, i))
    decreases |text| - i
  {
    if i == |text| {
      PieceKeeps(text[start..]);
    } else if IsBoundary(t, text, i) {
      var end := SkipClosers(text, i + 1);
      UnitsFromKeep(t, text, end, end);
      PieceKeeps(text[start..end]);
      PieceThen(text[start..end], UnitsFrom(t, text, end, end));
      NonSpaceConcat(text[start..end], text[end..]);
      assert text[start..end] + text[end..] == text[start..];
    } else {
      UnitsFromKeep(t, text, start, i + 1);
    }
  }

  lemma SentencesKeepTheText(t: Tables, text: string)
    ensures NonSpace(Concat(Units(t, text))) == NonSpace(text) && Tidy(Units(t, text))
  {
    UnitsFromKeep(t, text, 0, 0);
    assert text[0..] == text;
  }

  // ---------- cutting a long unit ----------

  lemma {:induction false} LastMarkIsLast(t: Tables, text: string, marks: string, lo: nat, hi: int)
    requires hi < |text|
    ensures var i := LastMark(t, text, marks, lo, hi);
            (i != -1 ==> SplitsAfter(t, text, marks, i))
            && forall k :: lo <= k <= hi && k > i ==> !SplitsAfter(t, text, marks, k)
    decreases hi - lo
  {
    if hi >= lo && !SplitsAfter(t, text, marks, hi) { LastMarkIsLast(t, text, marks, lo, hi - 1); }
  }

  lemma {:induction false} LastAfterSpaceIsLast(text: string, lo: nat, hi: int)
    requires 1 <= lo && hi <= |text|
    ensures var i := LastAfterSpace(text, lo, hi); i != -1 ==> AfterSpace(text, i)
    ensures var i := LastAfterSpace(text, lo, hi); forall k :: lo <= k <= hi && k > i ==> !AfterSpace(text, k)
    decreases hi - lo
  {
    if hi >= lo && !AfterSpace(text, hi) { LastAfterSpaceIsLast(text, lo, hi - 1); }
  }

  lemma {:induction false} OutOfWordLeavesWords(text: string, lo: nat, i: int)
    requires 1 <= lo <= i <= |text|
    ensures var r := OutOfWord(text, lo, i); lo <= r && (InsideWord(text, r) ==> r == lo)
    ensures var r := OutOfWord(text, lo, i); forall k :: r < k <= i ==> InsideWord(text, k)
    decreases i - lo
  {
    if i > lo && InsideWord(text, i) { OutOfWordLeavesWords(text, lo, i - 1); }
  }

  /** There is soft punctuation in the search range after which a cut is allowed. */
  ghost predicate HasSoftMark(t: Tables, text: string, lo: nat, hi: nat) {
    exists k :: lo <= k <= hi && k < |text| && SplitsAfter(t, text, SOFT_PUNCT, k)
  }

  /** A cut takes away enough, stays within the window, and goes one past the chunk size only after soft punctuation
      or a blank. */
  lemma CutStaysInTheWindow(t: Tables, text: string, chunk: nat)
    requires |text| > chunk >= 20
    ensures MinIndex(chunk) <= BestSplit(t, text, chunk) <= chunk + 1
    ensures BestSplit(t, text, chunk) == chunk + 1 ==> text[chunk] in SOFT_PUNCT || text[chunk] == ' '
  {
    var lo := MinIndex(chunk);
    LastMarkIsLast(t, text, SOFT_PUNCT, lo, chunk);
    LastMarkIsLast(t, text, " ", lo, chunk);
    OutOfWordLeavesWords(text, lo, chunk);
  }

  /** Soft punctuation is preferred to everything else, and the last one is taken. */
  lemma CutPrefersSoftPunctuation(t: Tables, text: string, chunk: nat)
    requires |text| > chunk >= 20 && HasSoftMark(t, text, MinIndex(chunk), chunk)
    ensures var r := BestSplit(t, text, chunk);
            SplitsAfter(t, text, SOFT_PUNCT, r - 1) && !HasSoftMark(t, text, r, chunk)
  {
    LastMarkIsLast(t, text, SOFT_PUNCT, MinIndex(chunk), chunk);
  }

  /** A cut at a mark goes through no word. */
  lemma MarkedCutIsOutsideWords(t: Tables, text: string, chunk: nat)
    requires |text| > chunk >= 20 && InsideWord(text, BestSplit(t, text, chunk))
    ensures BestSplit(t, text, chunk) == HardSplit(text, chunk)
  {
    LastMarkIsLast(t, text, SOFT_PUNCT, MinIndex(chunk), chunk);
    LastMarkIsLast(t, text, " ", MinIndex(chunk), chunk);
  }

  lemma HardCutInsideAWord(text: string, chunk: nat)
    requires |text| > chunk >= 20 && InsideWord(text, HardSplit(text, chunk))
    ensures HardSplit(text, chunk) == MinIndex(chunk)
    ensures forall k :: MinIndex(chunk) <= k <= chunk ==> InsideWord(text, k)
  {
    LastAfterSpaceIsLast(text, MinIndex(chunk), chunk);
    OutOfWordLeavesWords(text, MinIndex(chunk), chunk);
  }

  /** A cut goes through a word only if the whole search range is one word. */
  lemma CutGoesThroughAWordOnlyWhenItMust(t: Tables, text: string, chunk: nat)
    requires |text| > chunk >= 20 && InsideWord(text, BestSplit(t, text, chunk))
    ensures BestSplit(t, text, chunk) == MinIndex(chunk)
    ensures forall k :: MinIndex(chunk) - 1 <= k <= chunk ==> IsAsciiWordChar(text[k])
  {
    MarkedCutIsOutsideWords(t, text, chunk);
    HardCutInsideAWord(text, chunk);
    var lo := MinIndex(chunk);
    forall k | lo - 1 <= k <= chunk ensures IsAsciiWordChar(text[k]) {
      if k >= lo { assert InsideWord(text, k); } else { assert InsideWord(text, lo); }
    }
  }

  /** A cut takes at least 55 percent of a segment, and never less than 20 characters. */
  lemma CutsTakeMoreThanHalf(t: Tables, text: string, chunk: nat)
    requires |text| > chunk >= 40
    ensures BestSplit(t, text, chunk) >= 20 && 100 * BestSplit(t, text, chunk) > 55 * chunk - 100
  {
    CutStaysInTheWindow(t, text, chunk);
  }

  /** There is a blank in the range. */
  predicate HasBlank(text: string, lo: nat, hi: nat) {
    exists k :: lo <= k <= hi && k < |text| && text[k] == ' '
  }

  /** Without soft punctuation the last blank in the range is taken. */
  lemma CutPrefersBlanks(t: Tables, text: string, chunk: nat)
    requires |text| > chunk >= 20
    requires !HasSoftMark(t, text, MinIndex(chunk), chunk) && HasBlank(text, MinIndex(chunk), chunk)
    ensures var r := BestSplit(t, text, chunk); text[r - 1] == ' ' && !HasBlank(text, r, chunk)
  {
    LastMarkIsLast(t, text, SOFT_PUNCT, MinIndex(chunk), chunk);
    LastMarkIsLast(t, text, " ", MinIndex(chunk), chunk);
    var k :| MinIndex(chunk) <= k <= chunk && text[k] == ' ';
    assert SplitsAfter(t, text, " ", k);
    forall j | BestSplit(t, text, chunk) <= j <= chunk ensures text[j] != ' ' {
      assert !SplitsAfter(t, text, " ", j);
    }
  }

  /** Without either, the text is cut behind the last white space, if there is any. */
  lemma CutPrefersWhiteSpace(t: Tables, text: string, chunk: nat)
    requires |text| > chunk >= 20
    requires !HasSoftMark(t, text, MinIndex(chunk), chunk) && !HasBlank(text, MinIndex(chunk), chunk)
    requires exists k :: MinIndex(chunk) <= k <= chunk && AfterSpace(text, k)
    ensures var r := BestSplit(t, text, chunk);
            AfterSpace(text, r) && forall k :: r < k <= chunk ==> !AfterSpace(text, k)
  {
    LastMarkIsLast(t, text, SOFT_PUNCT, MinIndex(chunk), chunk);
    LastMarkIsLast(t, text, " ", MinIndex(chunk), chunk);
    LastAfterSpaceIsLast(text, MinIndex(chunk), chunk);
  }

  /** Soft punctuation between two digits, as in 1,000 or 12:30. */
  predicate InsideNumber(t: Tables, text: string, i: nat)
    requires i < |text|
  {
    text[i] in "，,、：:" && 0 < i < |text| - 1 && t.isDigit(text[i - 1]) && t.isDigit(text[i + 1])
  }

  /** No cut goes through a number, unless there is neither other soft punctuation nor a blank to cut at. */
  lemma CutGoesThroughANumberOnlyWhenItMust(t: Tables, text: string, chunk: nat)
    requires |text| > chunk >= 20 && InsideNumber(t, text, BestSplit(t, text, chunk) - 1)
    ensures !HasBlank(text, MinIndex(chunk), chunk)
    ensures forall k :: MinIndex(chunk) <= k <= chunk && text[k] in "，,、：:" ==> InsideNumber(t, text, k)
  {
    LastMarkIsLast(t, text, SOFT_PUNCT, MinIndex(chunk), chunk);
    if HasSoftMark(t, text, MinIndex(chunk), chunk) {
      CutPrefersSoftPunctuation(t, text, chunk);
    } else {
      if HasBlank(text, MinIndex(chunk), chunk) { CutPrefersBlanks(t, text, chunk); }
      forall k | MinIndex(chunk) <= k <= chunk && text[k] in "，,、：:" ensures InsideNumber(t, text, k) {
        assert !SplitsAfter(t, text, SOFT_PUNCT, k);
      }
    }
  }

  /** What words and names in English are written with. */
  predicate InName(c: char) {
    'a' <= c <= 'z' || 'A' <= c <= 'Z' || '0' <= c <= '9' || c in "_-"
  }

  /** A cut goes through a name only if the whole range is that name. */
  lemma NamesAreCutOnlyWhenTheyMust(t: Tables, text: string, chunk: nat)
    requires |text| > chunk >= 20
    requires var r := BestSplit(t, text, chunk); r < |text| && InName(text[r - 1]) && InName(text[r])
    ensures forall k :: MinIndex(chunk) - 1 <= k <= chunk ==> InName(text[k])
  {
    assert forall c: char :: IsAsciiWordChar(c) <==> InName(c);
    CutGoesThroughAWordOnlyWhenItMust(t, text, chunk);
  }

  /** What is cut off is a segment that fits. */
  lemma CutOffFits(t: Tables, text: string, chunk: nat)
    requires |text| > chunk >= 20 && !IsSpace(text[0])
    ensures var s := Strip(text[..BestSplit(t, text, chunk)]); Fits(s, chunk)
  {
    CutStaysInTheWindow(t, text, chunk);
    var r := BestSplit(t, text, chunk);
    var head := text[..r];
    StripKeeps(head);
    assert NonSpace(head) != [] by { assert head[0] == text[0]; }
    if |Strip(head)| == chunk + 1 {
      StripAll(head);
      assert head[chunk] == text[chunk];
    }
  }

  /** If stripping leaves the length as it is, it leaves the string as it is. */
  lemma StripAll(s: string)
    requires |Strip(s)| == |s|
    ensures Strip(s) == s
  {
    LStripKeeps(s);
    RStripKeeps(LStrip(s));
    assert s[0..] == s;
  }

  lemma AfterSplitKeeps(t: Tables, text: string, chunk: nat)
    requires text != [] && Trimmed(text)
    ensures NonSpace(text) == NonSpace(text[..BestSplit(t, text, chunk)]) + NonSpace(AfterSplit(t, text, chunk))
    ensures Trimmed(AfterSplit(t, text, chunk))
  {
    var at := BestSplit(t, text, chunk);
    NonSpaceConcat(text[..at], text[at..]);
    assert text[..at] + text[at..] == text;
    LStripKeeps(text[at..]);
  }

  lemma {:induction false} SplitKeeps(t: Tables, text: string, chunk: nat)
    requires Trimmed(text)
    ensures NonSpace(Concat(SplitFrom(t, text, chunk))) == NonSpace(text)
    decreases |text|
  {
    if |text| <= chunk {
      if text != [] { assert Concat([text]) == text; }
    } else {
      AfterSplitKeeps(t, text, chunk);
      SplitKeeps(t, AfterSplit(t, text, chunk), chunk);
      PieceThen(text[..BestSplit(t, text, chunk)], SplitFrom(t, AfterSplit(t, text, chunk), chunk));
    }
  }

  lemma {:induction false} SplitFits(t: Tables, text: string, chunk: nat)
    requires Trimmed(text) && chunk >= 20
    ensures AllFit(SplitFrom(t, text, chunk), chunk)
    decreases |text|
  {
    if |text| > chunk {
      AfterSplitKeeps(t, text, chunk);
      SplitFits(t, AfterSplit(t, text, chunk), chunk);
      CutOffFits(t, text, chunk);
    }
  }

  // ---------- collecting ----------

  lemma FlushedSound(p: Pieces, chunk: nat)
    requires Sound(p, chunk)
    ensures Sound(Flushed(p), chunk) && Held(Flushed(p)) == Held(p)
  {
    StripKeeps(p.open);
    FlushedKeeps(p);
  }

  lemma WithRoomSound(chunk: nat, p: Pieces, size: nat)
    requires Sound(p, chunk)
    ensures var q := WithRoom(chunk, p, size);
            Sound(q, chunk) && Held(q) == Held(p) && (q.open != [] ==> |q.open| + size + 1 <= chunk)
  {
    FlushedSound(p, chunk);
  }

  lemma GluedOpen(t: Tables, open: string, unit: string)
    requires Trimmed(open) && unit != [] && Trimmed(unit)
    ensures var g := Glued(t, open, unit);
            NonSpace(g) == NonSpace(open) + NonSpace(unit) && Trimmed(g)
            && |g| <= (if open == [] then 0 else |open| + 1) + |unit|
  {
    if open == [] {
      assert open + unit == unit;
      assert NonSpace(open) + NonSpace(unit) == NonSpace(unit);
    } else {
      GluedKeeps(open, unit);
      GluedTrimmed(open, unit);
      StripTrimmed(open + " " + unit);
    }
  }

  lemma AttachedSound(t: Tables, chunk: nat, p: Pieces, unit: string)
    requires Sound(p, chunk) && unit != [] && Trimmed(unit) && |unit| <= chunk
    requires p.open != [] ==> |p.open| + |unit| + 1 <= chunk
    ensures var q := Attached(t, p, unit); Sound(q, chunk) && Held(q) == Held(p) + NonSpace(unit)
  {
    GluedOpen(t, p.open, unit);
    Assoc(NonSpace(Concat(p.done)), NonSpace(p.open), NonSpace(unit));
  }

  lemma ExtendedSound(chunk: nat, p: Pieces, parts: seq<string>)
    requires Sound(p, chunk) && p.open == [] && AllFit(parts, chunk)
    ensures var q := Extended(p, parts); Sound(q, chunk) && Held(q) == Held(p) + NonSpace(Concat(parts))
  {
    ConcatConcat(p.done, parts);
    NonSpaceConcat(Concat(p.done), Concat(parts));
    var done := p.done + parts;
    forall i | 0 <= i < |done| ensures Fits(done[i], chunk) {
      if i < |p.done| { assert Fits(p.done[i], chunk); } else { assert Fits(parts[i - |p.done|], chunk); }
    }
  }

  lemma AppendedSound(t: Tables, chunk: nat, p: Pieces, unit: string)
    requires Sound(p, chunk) && chunk >= 20 && unit != [] && Trimmed(unit)
    ensures var q := Appended(t, chunk, p, unit); Sound(q, chunk) && Held(q) == Held(p) + NonSpace(unit)
  {
    StripTrimmed(unit);
    var q := WithRoom(chunk, p, |unit|);
    WithRoomSound(chunk, p, |unit|);
    if |unit| <= chunk {
      AttachedSound(t, chunk, q, unit);
    } else {
      FlushedSound(q, chunk);
      SplitKeeps(t, unit, chunk);
      SplitFits(t, unit, chunk);
      ExtendedSound(chunk, Flushed(q), SplitFrom(t, unit, chunk));
    }
  }

  lemma AddUnitSound(t: Tables, chunk: nat, flush: bool, p: Pieces, unit: string)
    requires Sound(p, chunk) && chunk >= 20 && unit != [] && Trimmed(unit)
    ensures var q := AddUnit(t, chunk, flush, p, unit); Sound(q, chunk) && Held(q) == Held(p) + NonSpace(unit)
  {
    AppendedSound(t, chunk, p, unit);
    FlushedSound(Appended(t, chunk, p, unit), chunk);
  }

  lemma {:induction false} AddUnitsSound(t: Tables, chunk: nat, flush: bool, p: Pieces, units: seq<string>)
    requires Sound(p, chunk) && chunk >= 20 && Tidy(units)
    ensures var q := AddUnits(t, chunk, flush, p, units);
            Sound(q, chunk) && Held(q) == Held(p) + NonSpace(Concat(units))
    decreases |units|
  {
    if units != [] {
      AddUnitSound(t, chunk, flush, p, units[0]);
      AddUnitsSound(t, chunk, flush, AddUnit(t, chunk, flush, p, units[0]), units[1..]);
      NonSpaceConcat(units[0], Concat(units[1..]));
      Assoc(Held(p), NonSpace(units[0]), NonSpace(Concat(units[1..])));
    }
  }

  lemma AddLineSound(t: Tables, chunk: nat, policy: Policy, flush: bool, p: Pieces, line: string)
    requires Sound(p, chunk) && chunk >= 20
    ensures var q := AddLine(t, chunk, policy, flush, p, line); Sound(q, chunk) && Held(q) == Held(p) + NonSpace(line)
  {
    SentencesKeepTheText(t, line);
    AddUnitsSound(t, chunk, flush, p, Units(t, line));
    FlushedSound(AddUnits(t, chunk, flush, p, Units(t, line)), chunk);
  }

  lemma {:induction false} AddLinesSound(t: Tables, chunk: nat, policy: Policy, flush: bool, p: Pieces,
                                         lines: seq<string>)
    requires Sound(p, chunk) && chunk >= 20
    ensures var q := AddLines(t, chunk, policy, flush, p, lines);
            Sound(q, chunk) && Held(q) == Held(p) + NonSpace(Concat(lines))
    decreases |lines|
  {
    if lines != [] {
      AddLineSound(t, chunk, policy, flush, p, lines[0]);
      AddLinesSound(t, chunk, policy, flush, AddLine(t, chunk, policy, flush, p, lines[0]), lines[1..]);
      NonSpaceConcat(lines[0], Concat(lines[1..]));
      Assoc(Held(p), NonSpace(lines[0]), NonSpace(Concat(lines[1..])));
    }
  }

  lemma AddParagraphSound(t: Tables, chunk: nat, policy: Policy, flush: bool, p: Pieces, paragraph: string)
    requires Sound(p, chunk) && chunk >= 20
    ensures var q := AddParagraph(t, chunk, policy, flush, p, paragraph);
            Sound(q, chunk) && q.open == [] && Held(q) == Held(p) + NonSpace(paragraph)
  {
    var lines := Lines(paragraph);
    LinesKeep(paragraph);
    if lines == [] {
      FlushedSound(p, chunk);
    } else {
      var logical := Logical(t, policy, chunk, lines);
      LogicalLinesKeepTheText(t, policy, chunk, lines);
      AddLinesSound(t, chunk, policy, flush, p, logical);
      FlushedSound(AddLines(t, chunk, policy, flush, p, logical), chunk);
    }
  }

  lemma {:induction false} AddParagraphsSound(t: Tables, chunk: nat, policy: Policy, flush: bool, p: Pieces,
                                              paragraphs: seq<string>)
    requires Sound(p, chunk) && chunk >= 20 && p.open == []
    ensures var q := AddParagraphs(t, chunk, policy, flush, p, paragraphs);
            Sound(q, chunk) && q.open == [] && Held(q) == Held(p) + NonSpace(Concat(paragraphs))
    decreases |paragraphs|
  {
    if paragraphs != [] {
      AddParagraphSound(t, chunk, policy, flush, p, paragraphs[0]);
      AddParagraphsSound(t, chunk, policy, flush, AddParagraph(t, chunk, policy, flush, p, paragraphs[0]),
                         paragraphs[1..]);
      NonSpaceConcat(paragraphs[0], Concat(paragraphs[1..]));
      Assoc(Held(p), NonSpace(paragraphs[0]), NonSpace(Concat(paragraphs[1..])));
    }
  }

  lemma CollectedIsSound(t: Tables, text: string, maxTextLength: int, segmentLength: int, policy: Policy, flush: bool)
    ensures var r := Collected(t, text, maxTextLength, segmentLength, policy, flush);
            AllFit(r, ChunkSize(segmentLength)) && NonSpace(Concat(r)) == NonSpace(Kept(text, maxTextLength))
  {
    var kept := Kept(text, maxTextLength);
    ParagraphsKeep(kept);
    var start := Pieces([], "");
    AddParagraphsSound(t, ChunkSize(segmentLength), policy, flush, start, Paragraphs(kept));
    var q := AddParagraphs(t, ChunkSize(segmentLength), policy, flush, start, Paragraphs(kept));
    assert Held(q) == NonSpace(Concat(q.done));
  }

  // ---------- the theorems ----------

  /** If there is any text, the loops collect a segment: the fallback to the whole text is never used. */
  lemma FallbackIsNeverUsed(t: Tables, text: string, maxTextLength: int, segmentLength: int, policy: Policy,
                            flush: bool)
    requires Normalized(text) != []
    ensures Collected(t, text, maxTextLength, segmentLength, policy, flush) != []
  {
    CollectedIsSound(t, text, maxTextLength, segmentLength, policy, flush);
    NormalizingKeepsVisibleText(text);
    assert Kept(text, maxTextLength)[0] == Normalized(text)[0];
    assert NonSpace(Kept(text, maxTextLength)) != [];
  }

  /** Joined in order, the segments are the kept part of the normalised text, up to white space. */
  lemma SegmentsKeepTheText(t: Tables, text: string, maxTextLength: int, segmentLength: int, policy: Policy,
                            flush: bool)
    ensures NonSpace(Concat(Segments(t, text, maxTextLength, segmentLength, policy, flush)))
         == NonSpace(Kept(text, maxTextLength))
  {
    CollectedIsSound(t, text, maxTextLength, segmentLength, policy, flush);
    if Normalized(text) != [] {
      FallbackIsNeverUsed(t, text, maxTextLength, segmentLength, policy, flush);
    }
  }

  /** A text that is not cut keeps all its visible characters. */
  lemma SegmentsKeepAllOfAShortText(t: Tables, text: string, maxTextLength: int, segmentLength: int, policy: Policy,
                                    flush: bool)
    requires |Normalized(text)| <= maxTextLength
    ensures NonSpace(Concat(Segments(t, text, maxTextLength, segmentLength, policy, flush))) == Visible(text)
  {
    SegmentsKeepTheText(t, text, maxTextLength, segmentLength, policy, flush);
    NormalizingKeepsVisibleText(text);
    assert Kept(text, maxTextLength) == Normalized(text);
  }

  /** Every segment is non-empty, trimmed, and within the length bound. */
  lemma SegmentsFit(t: Tables, text: string, maxTextLength: int, segmentLength: int, policy: Policy, flush: bool)
    ensures AllFit(Segments(t, text, maxTextLength, segmentLength, policy, flush), ChunkSize(segmentLength))
  {
    CollectedIsSound(t, text, maxTextLength, segmentLength, policy, flush);
    if Normalized(text) != [] {
      FallbackIsNeverUsed(t, text, maxTextLength, segmentLength, policy, flush);
    }
  }

  // ---------- flushing at sentence boundaries ----------

  /** Each sentence on its own, cut only if it is too long. */
  function SplitAll(t: Tables, chunk: nat, units: seq<string>): seq<string> {
    if units == [] then [] else SplitFrom(t, units[0], chunk) + SplitAll(t, chunk, units[1..])
  }

  function UnitsOfLines(t: Tables, lines: seq<string>): seq<string> {
    if lines == [] then [] else Units(t, lines[0]) + UnitsOfLines(t, lines[1..])
  }

  /** All sentences of the text, in order. */
  function UnitsOfParagraphs(t: Tables, policy: Policy, chunk: nat, paragraphs: seq<string>): seq<string> {
    if paragraphs == [] then []
    else
      var lines := Lines(paragraphs[0]);
      (if lines == [] then [] else UnitsOfLines(t, Logical(t, policy, chunk, lines)))
      + UnitsOfParagraphs(t, policy, chunk, paragraphs[1..])
  }

  lemma {:induction false} SplitAllConcat(t: Tables, chunk: nat, a: seq<string>, b: seq<string>)
    ensures SplitAll(t, chunk, a + b) == SplitAll(t, chunk, a) + SplitAll(t, chunk, b)
  {
    if a == [] {
      assert a + b == b;
    } else {
      assert (a + b)[1..] == a[1..] + b;
      SplitAllConcat(t, chunk, a[1..], b);
    }
  }

  lemma ExtendedTwice(p: Pieces, a: seq<string>, b: seq<string>)
    ensures Extended(Extended(p, a), b) == Extended(p, a + b)
  {
    assert p.done + a + b == p.done + (a + b);
  }

  lemma FlushedUnit(t: Tables, chunk: nat, p: Pieces, unit: string)
    requires p.open == [] && unit != [] && Trimmed(unit)
    ensures AddUnit(t, chunk, true, p, unit) == Extended(p, SplitFrom(t, unit, chunk))
  {
    StripTrimmed(unit);
    assert p.open + unit == unit;
    if |unit| <= chunk {
      assert Appended(t, chunk, p, unit) == p.(open := unit);
    } else {
      assert Appended(t, chunk, p, unit) == Extended(p, SplitFrom(t, unit, chunk));
    }
  }

  lemma {:induction false} FlushedUnits(t: Tables, chunk: nat, p: Pieces, units: seq<string>)
    requires p.open == [] && Tidy(units)
    ensures AddUnits(t, chunk, true, p, units) == Extended(p, SplitAll(t, chunk, units))
    decreases |units|
  {
    if units != [] {
      FlushedUnit(t, chunk, p, units[0]);
      var q := Extended(p, SplitFrom(t, units[0], chunk));
      FlushedUnits(t, chunk, q, units[1..]);
      ExtendedTwice(p, SplitFrom(t, units[0], chunk), SplitAll(t, chunk, units[1..]));
    } else {
      assert p.done + [] == p.done;
    }
  }

  lemma FlushedLine(t: Tables, chunk: nat, policy: Policy, p: Pieces, line: string)
    requires p.open == []
    ensures AddLine(t, chunk, policy, true, p, line) == Extended(p, SplitAll(t, chunk, Units(t, line)))
  {
    SentencesKeepTheText(t, line);
    FlushedUnits(t, chunk, p, Units(t, line));
  }

  lemma {:induction false} FlushedLines(t: Tables, chunk: nat, policy: Policy, p: Pieces, lines: seq<string>)
    requires p.open == []
    ensures AddLines(t, chunk, policy, true, p, lines) == Extended(p, SplitAll(t, chunk, UnitsOfLines(t, lines)))
    decreases |lines|
  {
    if lines != [] {
      FlushedLine(t, chunk, policy, p, lines[0]);
      var q := Extended(p, SplitAll(t, chunk, Units(t, lines[0])));
      FlushedLines(t, chunk, policy, q, lines[1..]);
      ExtendedTwice(p, SplitAll(t, chunk, Units(t, lines[0])), SplitAll(t, chunk, UnitsOfLines(t, lines[1..])));
      SplitAllConcat(t, chunk, Units(t, lines[0]), UnitsOfLines(t, lines[1..]));
    } else {
      assert p.done + [] == p.done;
    }
  }

  lemma FlushedParagraph(t: Tables, chunk: nat, policy: Policy, p: Pieces, paragraph: string)
    requires p.open == []
    ensures var lines := Lines(paragraph);
            var units := if lines == [] then [] else UnitsOfLines(t, Logical(t, policy, chunk, lines));
            AddParagraph(t, chunk, policy, true, p, paragraph) == Extended(p, SplitAll(t, chunk, units))
  {
    var lines := Lines(paragraph);
    if lines != [] { FlushedLines(t, chunk, policy, p, Logical(t, policy, chunk, lines)); }
  }

  lemma {:induction false} FlushedParagraphs(t: Tables, chunk: nat, policy: Policy, p: Pieces, paragraphs: seq<string>)
    requires p.open == []
    ensures AddParagraphs(t, chunk, policy, true, p, paragraphs)
         == Extended(p, SplitAll(t, chunk, UnitsOfParagraphs(t, policy, chunk, paragraphs)))
    decreases |paragraphs|
  {
    if paragraphs != [] {
      FlushedParagraph(t, chunk, policy, p, paragraphs[0]);
      var lines := Lines(paragraphs[0]);
      var units := if lines == [] then [] else UnitsOfLines(t, Logical(t, policy, chunk, lines));
      var q := Extended(p, SplitAll(t, chunk, units));
      FlushedParagraphs(t, chunk, policy, q, paragraphs[1..]);
      var more := UnitsOfParagraphs(t, policy, chunk, paragraphs[1..]);
      ExtendedTwice(p, SplitAll(t, chunk, units), SplitAll(t, chunk, more));
      SplitAllConcat(t, chunk, units, more);
    } else {
      assert p.done + [] == p.done;
    }
  }

  /** With flushing on, no segment spans two sentences: the segments are the sentences in order, each cut on its own. */
  lemma FlushingKeepsSentencesApart(t: Tables, text: string, maxTextLength: int, segmentLength: int, policy: Policy)
    requires Normalized(text) != []
    ensures var chunk := ChunkSize(segmentLength);
            Segments(t, text, maxTextLength, segmentLength, policy, true)
            == SplitAll(t, chunk, UnitsOfParagraphs(t, policy, chunk, Paragraphs(Kept(text, maxTextLength))))
  {
    FallbackIsNeverUsed(t, text, maxTextLength, segmentLength, policy, true);
    FlushedParagraphs(t, ChunkSize(segmentLength), policy, Pieces([], ""), Paragraphs(Kept(text, maxTextLength)));
  }
}

/** Where the segmenter puts white space and where it does not: no word is torn or run into its neighbour, no English
    sentence is stuck to the one before it, and no blank appears beside a character that is not ASCII. */
module TextSeams {
  import opened TextNormalization
  import opened TextSegmenter
  import opened TextSegmenterProofs

  /** How a visible character stands to the one before it: right behind it, with white space between, or in another
      piece. */
  datatype Gap = Touch | Blank | Break

  datatype Seen = Seen(c: char, gap: Gap)

  function Spaced(g: Gap): Gap {
    if g.Break? then Break else Blank
  }

  /** The visible characters of a text, the first of which stands behind a gap `g`. */
  function Read(s: string, g: Gap): seq<Seen> {
    if s == [] then []
    else if IsSpace(s[0]) then Read(s[1..], Spaced(g))
    else [Seen(s[0], g)] + Read(s[1..], Touch)
  }

  /** The gap that a text leaves to what follows it. */
  function Left(s: string, g: Gap): Gap {
    if s == [] then g else Left(s[1..], if IsSpace(s[0]) then Spaced(g) else Touch)
  }

  function ReadAll(parts: seq<string>): seq<Seen> {
    if parts == [] then [] else Read(parts[0], Break) + ReadAll(parts[1..])
  }

  lemma {:induction false} ReadConcat(a: string, b: string, g: Gap)
    ensures Read(a + b, g) == Read(a, g) + Read(b, Left(a, g)) && Left(a + b, g) == Left(b, Left(a, g))
  {
    if a == [] {
      assert a + b == b;
    } else {
      assert (a + b)[1..] == a[1..] + b;
      ReadConcat(a[1..], b, if IsSpace(a[0]) then Spaced(g) else Touch);
    }
  }

  lemma {:induction false} ReadAllConcat(a: seq<string>, b: seq<string>)
    ensures ReadAll(a + b) == ReadAll(a) + ReadAll(b)
  {
    if a == [] {
      assert a + b == b;
    } else {
      assert (a + b)[1..] == a[1..] + b;
      ReadAllConcat(a[1..], b);
    }
  }

  lemma ReadOne(s: string)
    ensures ReadAll([s]) == Read(s, Break)
  {
    assert ReadAll([s][1..]) == [];
  }

  lemma {:induction false} LStripRead(s: string)
    ensures Read(LStrip(s), Break) == Read(s, Break)
  {
    if s != [] && IsSpace(s[0]) { LStripRead(s[1..]); }
  }

  lemma {:induction false} RStripRead(s: string, g: Gap)
    ensures Read(RStrip(s), g) == Read(s, g)
  {
    if s != [] && IsSpace(s[|s| - 1]) {
      var front, last := s[..|s| - 1], [s[|s| - 1]];
      RStripRead(front, g);
      ReadConcat(front, last, g);
      assert front + last == s && last[1..] == [];
    }
  }

  /** Stripping a piece is not seen. */
  lemma StripRead(s: string)
    ensures Read(Strip(s), Break) == Read(s, Break)
  {
    LStripRead(s);
    RStripRead(LStrip(s), Break);
  }

  /** Right behind a text means right behind its last visible character. */
  lemma {:induction false} LastOfRead(s: string, g: Gap)
    requires s != []
    ensures if IsSpace(s[|s| - 1]) then !Left(s, g).Touch?
            else Left(s, g).Touch? && Read(s, g) != [] && Read(s, g)[|Read(s, g)| - 1].c == s[|s| - 1]
  {
    var front, last := s[..|s| - 1], [s[|s| - 1]];
    assert front + last == s && last[1..] == [];
    ReadConcat(front, last, g);
  }

  // ---------- when one reading follows another ----------

  predicate IsWord(c: char) {
    IsAsciiLetter(c) || '0' <= c <= '9'
  }

  /** Where English text wants a blank: behind a letter, a digit or a mark that closes something, unless a closing mark
      or a comma follows; and only within ASCII. */
  predicate WantsBlank(l: char, c: char) {
    (IsWord(l) || l in ".!?;:)]}\"'") && IsAscii(c) && c !in ",.!?;:)]}\"'"
  }

  /** What may become of the gap `gb` between two characters. */
  predicate MayBecome(l: char, c: char, ga: Gap, gb: Gap, whole: bool) {
    && (WantsBlank(l, c) && ga.Touch? ==> gb.Touch?)
    && (ga.Blank? && !gb.Blank? ==> WantsBlank(l, c))
    && (whole && IsWord(l) && IsWord(c) && gb.Touch? ==> ga.Touch?)
  }

  /** The same characters, with gaps that may have become what they are. */
  ghost predicate Follows(a: seq<Seen>, b: seq<Seen>, whole: bool) {
    && |a| == |b| && (forall i :: 0 <= i < |a| ==> a[i].c == b[i].c)
    && forall i :: 0 < i < |a| ==> MayBecome(b[i - 1].c, b[i].c, a[i].gap, b[i].gap, whole)
  }

  lemma FollowsItself(a: seq<Seen>, whole: bool)
    ensures Follows(a, a, whole)
  {
  }

  lemma FollowsOn(a: seq<Seen>, b: seq<Seen>, c: seq<Seen>, whole: bool)
    requires Follows(a, b, whole) && Follows(b, c, whole)
    ensures Follows(a, c, whole)
  {
    forall i | 0 < i < |a| ensures MayBecome(c[i - 1].c, c[i].c, a[i].gap, c[i].gap, whole) {
      assert MayBecome(b[i - 1].c, b[i].c, a[i].gap, b[i].gap, whole);
      assert MayBecome(c[i - 1].c, c[i].c, b[i].gap, c[i].gap, whole);
    }
  }

  /** The gap between two stretches may have become what it is. */
  ghost predicate SeamMayBecome(before: seq<Seen>, a: seq<Seen>, b: seq<Seen>, whole: bool) {
    before != [] && a != [] && b != [] ==>
      MayBecome(before[|before| - 1].c, b[0].c, a[0].gap, b[0].gap, whole)
  }

  lemma FollowsConcat(a: seq<Seen>, b: seq<Seen>, c: seq<Seen>, d: seq<Seen>, whole: bool)
    requires Follows(a, b, whole) && Follows(c, d, whole) && SeamMayBecome(b, c, d, whole)
    ensures Follows(a + c, b + d, whole)
  {
    var x, y, n := a + c, b + d, |a|;
    forall i | 0 < i < |x| ensures MayBecome(y[i - 1].c, y[i].c, x[i].gap, y[i].gap, whole) {
      if i > n {
        assert x[i] == c[i - n] && y[i] == d[i - n] && y[i - 1] == d[i - n - 1];
      } else if i == n {
        assert x[i] == c[0] && y[i] == d[0];
      }
    }
  }

  /** Gaps that are the same, or breaks where there was white space, need no further reason. */
  predicate Mild(a: seq<Seen>, b: seq<Seen>) {
    a != [] && b != [] ==> a[0].gap == b[0].gap || (a[0].gap.Break? && !b[0].gap.Touch?)
  }

  lemma MildSeam(before: seq<Seen>, a: seq<Seen>, b: seq<Seen>, whole: bool)
    requires Mild(a, b)
    ensures SeamMayBecome(before, a, b, whole)
  {
  }

  /** The first visible character of a text stands behind the given gap, or behind white space if there is some. */
  lemma {:induction false} FirstGap(s: string, g: Gap)
    ensures Read(s, g) != [] ==> Read(s, g)[0].gap == g || Read(s, g)[0].gap == Spaced(g)
    ensures Read(s, g) != [] && !IsSpace(s[0]) ==> Read(s, g)[0] == Seen(s[0], g)
  {
    if s != [] && IsSpace(s[0]) { FirstGap(s[1..], Spaced(g)); }
  }

  /** Reading a text behind another gap changes at most the first gap. */
  lemma {:induction false} OtherGap(s: string, g: Gap, h: Gap, whole: bool)
    ensures Follows(Read(s, g), Read(s, h), whole)
  {
    if s != [] {
      if IsSpace(s[0]) {
        OtherGap(s[1..], Spaced(g), Spaced(h), whole);
      } else {
        FollowsItself(Read(s[1..], Touch), whole);
        var rest := Read(s[1..], Touch);
        FollowsConcat([Seen(s[0], g)], [Seen(s[0], h)], rest, rest, whole);
      }
    }
  }

  /** Cutting a text in two, between words if words are to stay whole. */
  lemma CutFollows(a: string, b: string, whole: bool)
    requires whole ==> a == [] || b == [] || !(IsWord(a[|a| - 1]) && IsWord(b[0]))
    ensures Follows(Read(a, Break) + Read(b, Break), Read(a + b, Break), whole)
  {
    ReadConcat(a, b, Break);
    FollowsItself(Read(a, Break), whole);
    OtherGap(b, Break, Left(a, Break), whole);
    if a == [] {
      assert Left(a, Break) == Break && SeamMayBecome(Read(a, Break), Read(b, Break), Read(b, Left(a, Break)), whole);
    } else {
      LastOfRead(a, Break);
      FirstGap(b, Break);
      FirstGap(b, Left(a, Break));
      CutSeam(a, b, whole);
    }
    FollowsConcat(Read(a, Break), Read(a, Break), Read(b, Break), Read(b, Left(a, Break)), whole);
  }

  lemma CutSeam(a: string, b: string, whole: bool)
    requires a != [] && (whole ==> b == [] || !(IsWord(a[|a| - 1]) && IsWord(b[0])))
    ensures SeamMayBecome(Read(a, Break), Read(b, Break), Read(b, Left(a, Break)), whole)
  {
    var g := Left(a, Break);
    LastOfRead(a, Break);
    FirstGap(b, Break);
    FirstGap(b, g);
    if b != [] && IsSpace(b[0]) { SpacedFirst(b, g); }
  }

  lemma {:induction false} SpacedFirst(s: string, g: Gap)
    requires s != [] && IsSpace(s[0])
    ensures Read(s, g) != [] ==> !Read(s, g)[0].gap.Touch?
  {
    FirstGap(s[1..], Spaced(g));
  }

  // ---------- gluing ----------

  /** The character database knows which ASCII characters are letters and digits. */
  ghost predicate KnowsAscii(t: Tables) {
    forall c :: IsAscii(c) ==> (t.isAlnum(c) <==> IsWord(c))
  }

  /** Two texts glued with or without a blank, according to what meets. */
  predicate Seam(t: Tables, left: string, right: string, blank: bool)
    requires left != [] && right != []
  {
    blank <==> WantsBlank(left[|left| - 1], right[0])
  }

  lemma NeedsSpaceSeams(t: Tables, left: string, right: string)
    requires KnowsAscii(t) && left != [] && right != [] && Trimmed(left) && Trimmed(right)
    ensures Seam(t, left, right, NeedsSpace(t, left, right))
  {
    var l, r := left[|left| - 1], right[0];
    assert IsAscii(r) ==> (r in NO_SPACE_BEFORE <==> r in ",.!?;:)]}\"'");
    assert IsAscii(l) ==> (l in SPACE_AFTER <==> l in ".!?;:)]}\"'");
    assert IsWord(l) || l in ".!?;:)]}\"'" ==> IsAscii(l);
  }

  lemma GlueFollows(t: Tables, left: string, right: string, blank: bool, whole: bool)
    requires left != [] && right != [] && Trimmed(left) && Trimmed(right) && Seam(t, left, right, blank)
    ensures Follows(Read(left + (if blank then " " else "") + right, Break), Read(left, Break) + Read(right, Break),
                    whole)
  {
    var gap := if blank then " " else "";
    var g := if blank then Blank else Touch;
    ReadConcat(left, gap, Break);
    ReadConcat(left + gap, right, Break);
    LastOfRead(left, Break);
    assert Read(gap, Touch) == [] && Left(gap, Touch) == g;
    assert Read(left, Break) + [] == Read(left, Break);
    FollowsItself(Read(left, Break), whole);
    OtherGap(right, g, Break, whole);
    FirstGap(right, g);
    FirstGap(right, Break);
    FollowsConcat(Read(left, Break), Read(left, Break), Read(right, g), Read(right, Break), whole);
  }

  lemma GluedFollows(t: Tables, open: string, unit: string, whole: bool)
    requires KnowsAscii(t) && Trimmed(open) && unit != [] && Trimmed(unit)
    ensures Follows(Read(Glued(t, open, unit), Break), Read(open, Break) + Read(unit, Break), whole)
  {
    if open == [] {
      assert open + unit == unit && Read(open, Break) + Read(unit, Break) == Read(unit, Break);
      FollowsItself(Read(unit, Break), whole);
    } else {
      NeedsSpaceSeams(t, open, unit);
      GlueFollows(t, open, unit, NeedsSpace(t, open, unit), whole);
      GluedTrimmed(open, unit);
      StripTrimmed(open + " " + unit);
      assert open + "" + unit == open + unit;
    }
  }

  lemma JoinStepFollows(t: Tables, value: string, line: string, whole: bool)
    requires KnowsAscii(t) && Trimmed(value)
    ensures Follows(Read(JoinStep(t, value, line), Break), Read(value, Break) + Read(line, Break), whole)
  {
    var l := Strip(line);
    StripRead(line);
    StripKeeps(line);
    if l == [] {
      assert Read(value, Break) + [] == Read(value, Break);
      FollowsItself(Read(value, Break), whole);
    } else if value == [] {
      assert [] + Read(l, Break) == Read(l, Break);
      FollowsItself(Read(l, Break), whole);
    } else {
      NeedsSpaceSeams(t, value, l);
      GlueFollows(t, value, l, NeedsSpace(t, value, l), whole);
      assert value + "" + l == value + l;
    }
  }

  lemma Associate(a: seq<Seen>, b: seq<Seen>, c: seq<Seen>)
    ensures a + b + c == a + (b + c)
  {
  }

  /** Something that is read on in the same way on both sides. */
  lemma FollowsThen(a: seq<Seen>, b: seq<Seen>, c: seq<Seen>, whole: bool)
    requires Follows(a, b, whole)
    ensures Follows(a + c, b + c, whole)
  {
    FollowsItself(c, whole);
    FollowsConcat(a, b, c, c, whole);
  }

  lemma FollowsBehind(a: seq<Seen>, b: seq<Seen>, c: seq<Seen>, whole: bool)
    requires Follows(b, c, whole) && Mild(b, c)
    ensures Follows(a + b, a + c, whole)
  {
    FollowsItself(a, whole);
    MildSeam(a, b, c, whole);
    FollowsConcat(a, a, b, c, whole);
  }

  lemma {:induction false} JoinFollows(t: Tables, value: string, lines: seq<string>, whole: bool)
    requires KnowsAscii(t) && Trimmed(value)
    ensures Follows(Read(JoinFrom(t, value, lines), Break), Read(value, Break) + ReadAll(lines), whole)
    decreases |lines|
  {
    if lines == [] {
      assert Read(value, Break) + [] == Read(value, Break);
      FollowsItself(Read(value, Break), whole);
    } else {
      var next := JoinStep(t, value, lines[0]);
      JoinStepKeeps(t, value, lines[0]);
      JoinStepFollows(t, value, lines[0], whole);
      JoinFollows(t, next, lines[1..], whole);
      var rest := ReadAll(lines[1..]);
      FollowsThen(Read(next, Break), Read(value, Break) + Read(lines[0], Break), rest, whole);
      Associate(Read(value, Break), Read(lines[0], Break), rest);
      FollowsOn(Read(JoinFrom(t, value, lines), Break), Read(next, Break) + rest, Read(value, Break) + ReadAll(lines),
                whole);
    }
  }

  // ---------- collecting ----------

  /** Everything collected so far, as it reads. */
  function Reads(p: Pieces): seq<Seen> {
    ReadAll(p.done) + Read(p.open, Break)
  }

  lemma FlushedReads(p: Pieces)
    ensures Reads(Flushed(p)) == Reads(p)
  {
    StripRead(p.open);
    var s := Strip(p.open);
    ReadOne(s);
    ReadAllConcat(p.done, [s]);
    assert Read("", Break) == [] && ReadAll(p.done) + [] == ReadAll(p.done);
    assert ReadAll(p.done) + Read(s, Break) + [] == ReadAll(p.done) + Read(s, Break);
  }

  lemma ExtendedReads(p: Pieces, parts: seq<string>)
    requires p.open == []
    ensures Reads(Extended(p, parts)) == Reads(p) + ReadAll(parts)
  {
    ReadAllConcat(p.done, parts);
    assert ReadAll(p.done) + [] == ReadAll(p.done);
    assert ReadAll(p.done) + ReadAll(parts) + [] == ReadAll(p.done) + ReadAll(parts);
  }

  lemma {:induction false} BreaksFirst(parts: seq<string>)
    ensures ReadAll(parts) != [] ==> ReadAll(parts)[0].gap.Break?
  {
    if parts != [] {
      FirstGap(parts[0], Break);
      BreaksFirst(parts[1..]);
    }
  }

  /** Pieces whose open text has been replaced by one that follows it and something more. */
  lemma OpenFollows(p: Pieces, open: string, more: seq<Seen>, whole: bool)
    requires Follows(Read(open, Break), Read(p.open, Break) + more, whole)
    requires more != [] ==> more[0].gap.Break?
    ensures Follows(Reads(p.(open := open)), Reads(p) + more, whole)
  {
    var before, b := ReadAll(p.done), Read(p.open, Break) + more;
    FirstGap(open, Break);
    FirstGap(p.open, Break);
    assert Mild(Read(open, Break), b);
    FollowsBehind(before, Read(open, Break), b, whole);
    Associate(before, Read(p.open, Break), more);
  }

  lemma StandaloneFollows(p: Pieces, line: string, whole: bool)
    ensures Follows(Reads(Extended(Flushed(p), [line])), Reads(p) + Read(line, Break), whole)
  {
    FlushedReads(p);
    ExtendedReads(Flushed(p), [line]);
    ReadOne(line);
    FollowsItself(Reads(p) + Read(line, Break), whole);
  }

  lemma JoinedOpenFollows(t: Tables, p: Pieces, line: string, whole: bool)
    requires KnowsAscii(t) && Trimmed(p.open)
    ensures Follows(Reads(p.(open := JoinedOpen(t, p.open, line))), Reads(p) + Read(line, Break), whole)
  {
    var joined := JoinedOpen(t, p.open, line);
    FirstGap(line, Break);
    if p.open != [] {
      JoinFollows(t, "", [p.open, line], whole);
      ReadOne(line);
      assert [p.open, line][1..] == [line] && Read("", Break) == [];
      assert [] + ReadAll([p.open, line]) == Read(p.open, Break) + Read(line, Break);
    } else {
      assert [] + Read(line, Break) == Read(line, Break);
      FollowsItself(Read(line, Break), whole);
    }
    OpenFollows(p, joined, Read(line, Break), whole);
  }

  lemma GroupStepFollows(t: Tables, chunk: int, p: Pieces, line: string, whole: bool)
    requires KnowsAscii(t) && Trimmed(p.open)
    ensures Follows(Reads(GroupStep(t, chunk, p, line)), Reads(p) + Read(line, Break), whole)
  {
    StandaloneFollows(p, line, whole);
    JoinedOpenFollows(t, p, line, whole);
    FlushedReads(p.(open := JoinedOpen(t, p.open, line)));
  }

  /** The step of every loop over parts: one part, then the others. */
  lemma LoopFollows(start: seq<Seen>, next: seq<Seen>, end: seq<Seen>, part: seq<Seen>, rest: seq<Seen>, whole: bool)
    requires Follows(next, start + part, whole) && Follows(end, next + rest, whole)
    ensures Follows(end, start + (part + rest), whole)
  {
    FollowsThen(next, start + part, rest, whole);
    Associate(start, part, rest);
    FollowsOn(end, next + rest, start + (part + rest), whole);
  }

  lemma {:induction false} GroupFollows(t: Tables, chunk: int, p: Pieces, lines: seq<string>, whole: bool)
    requires KnowsAscii(t) && Tidy(p.done) && Trimmed(p.open) && Tidy(lines)
    ensures Follows(Reads(GroupFrom(t, chunk, p, lines)), Reads(p) + ReadAll(lines), whole)
    decreases |lines|
  {
    if lines == [] {
      assert Reads(p) + [] == Reads(p);
      FollowsItself(Reads(p), whole);
    } else {
      var q := GroupStep(t, chunk, p, lines[0]);
      GroupStepKeeps(t, chunk, p, lines[0]);
      GroupStepFollows(t, chunk, p, lines[0], whole);
      GroupFollows(t, chunk, q, lines[1..], whole);
      LoopFollows(Reads(p), Reads(q), Reads(GroupFrom(t, chunk, p, lines)), Read(lines[0], Break), ReadAll(lines[1..]),
                  whole);
    }
  }

  lemma NothingRead()
    ensures Reads(Pieces([], "")) == []
  {
  }

  lemma LogicalFollows(t: Tables, policy: Policy, chunk: int, lines: seq<string>, whole: bool)
    requires KnowsAscii(t) && Tidy(lines)
    ensures Follows(ReadAll(Logical(t, policy, chunk, lines)), ReadAll(lines), whole)
  {
    FollowsItself(ReadAll(lines), whole);
    match policy
    case Preserve =>
    case Space =>
      JoinFollows(t, "", lines, whole);
      ReadOne(JoinFrom(t, "", lines));
      assert [] + ReadAll(lines) == ReadAll(lines);
    case Auto =>
      var p := GroupFrom(t, chunk, Pieces([], ""), lines);
      GroupFollows(t, chunk, Pieces([], ""), lines, whole);
      NothingRead();
      assert [] + ReadAll(lines) == ReadAll(lines);
      FlushedReads(p);
      assert Reads(Flushed(p)) == ReadAll(Flushed(p).done);
  }

  // ---------- sentences ----------

  lemma PieceRead(s: string)
    ensures ReadAll(Piece(s)) == Read(s, Break)
  {
    StripRead(s);
    ReadOne(Strip(s));
  }

  lemma CloserIsNoWord(text: string, start: nat, i: nat)
    requires start <= i <= |text|
    ensures var end := SkipClosers(text, i); end > i ==> !IsWord(text[end - 1])
    decreases |text| - i
  {
    if i < |text| && text[i] in CLOSERS { CloserIsNoWord(text, start, i + 1); }
  }

  lemma {:induction false} UnitsFromFollow(t: Tables, text: string, start: nat, i: nat)
    requires start <= i <= |text|
    ensures Follows(ReadAll(UnitsFrom(t, text, start, i)), Read(text[start..], Break), true)
    decreases |text| - i
  {
    if i == |text| {
      PieceRead(text[start..]);
      FollowsItself(Read(text[start..], Break), true);
    } else if IsBoundary(t, text, i) {
      var end := SkipClosers(text, i + 1);
      CloserIsNoWord(text, start, i + 1);
      UnitsFromFollow(t, text, end, end);
      var unit := text[start..end];
      assert unit[|unit| - 1] == text[end - 1] && unit + text[end..] == text[start..];
      CutUnit(unit, text[end..], UnitsFrom(t, text, end, end));
    } else {
      UnitsFromFollow(t, text, start, i + 1);
    }
  }

  /** One unit cut off. */
  lemma CutUnit(unit: string, behind: string, rest: seq<string>)
    requires unit != [] && !IsWord(unit[|unit| - 1]) && Follows(ReadAll(rest), Read(behind, Break), true)
    ensures Follows(ReadAll(Piece(unit) + rest), Read(unit + behind, Break), true)
  {
    PieceRead(unit);
    ReadAllConcat(Piece(unit), rest);
    BreaksFirst(rest);
    FirstGap(behind, Break);
    FollowsBehind(Read(unit, Break), ReadAll(rest), Read(behind, Break), true);
    CutFollows(unit, behind, true);
    FollowsOn(ReadAll(Piece(unit) + rest), Read(unit, Break) + Read(behind, Break), Read(unit + behind, Break), true);
  }

  lemma UnitsFollow(t: Tables, line: string)
    ensures Follows(ReadAll(Units(t, line)), Read(line, Break), true)
  {
    UnitsFromFollow(t, line, 0, 0);
    assert line[0..] == line;
  }

  /** What holds with whole words holds without. */
  lemma WholeOrNot(a: seq<Seen>, b: seq<Seen>, whole: bool)
    requires Follows(a, b, true)
    ensures Follows(a, b, whole)
  {
    forall i | 0 < i < |a| ensures MayBecome(b[i - 1].c, b[i].c, a[i].gap, b[i].gap, whole) {
      assert MayBecome(b[i - 1].c, b[i].c, a[i].gap, b[i].gap, true);
    }
  }

  lemma {:induction false} SplitFollows(t: Tables, text: string, chunk: nat)
    ensures Follows(ReadAll(SplitFrom(t, text, chunk)), Read(text, Break), false)
    decreases |text|
  {
    if |text| <= chunk {
      if text != [] { ReadOne(text); }
      FollowsItself(Read(text, Break), false);
    } else {
      var at := BestSplit(t, text, chunk);
      var unit, behind, after := text[..at], text[at..], AfterSplit(t, text, chunk);
      var rest := SplitFrom(t, after, chunk);
      SplitFollows(t, after, chunk);
      LStripRead(behind);
      PieceRead(unit);
      ReadAllConcat(Piece(unit), rest);
      BreaksFirst(rest);
      FirstGap(behind, Break);
      FollowsBehind(Read(unit, Break), ReadAll(rest), Read(behind, Break), false);
      CutFollows(unit, behind, false);
      assert unit + behind == text;
      FollowsOn(ReadAll(SplitFrom(t, text, chunk)), Read(unit, Break) + Read(behind, Break), Read(text, Break), false);
    }
  }

  // ---------- the loops ----------

  lemma WithRoomReads(chunk: nat, p: Pieces, size: nat)
    ensures Reads(WithRoom(chunk, p, size)) == Reads(p)
  {
    FlushedReads(p);
  }

  lemma AppendedFollows(t: Tables, chunk: nat, p: Pieces, unit: string, whole: bool)
    requires KnowsAscii(t) && Sound(p, chunk) && unit != [] && Trimmed(unit) && (whole ==> |unit| <= chunk)
    ensures Follows(Reads(Appended(t, chunk, p, unit)), Reads(p) + Read(unit, Break), whole)
  {
    StripTrimmed(unit);
    var q := WithRoom(chunk, p, |unit|);
    WithRoomSound(chunk, p, |unit|);
    WithRoomReads(chunk, p, |unit|);
    FirstGap(unit, Break);
    if |unit| <= chunk {
      GluedFollows(t, q.open, unit, whole);
      OpenFollows(q, Glued(t, q.open, unit), Read(unit, Break), whole);
    } else {
      var f, parts := Flushed(q), SplitFrom(t, unit, chunk);
      FlushedReads(q);
      ExtendedReads(f, parts);
      SplitFollows(t, unit, chunk);
      BreaksFirst(parts);
      FollowsBehind(Reads(p), ReadAll(parts), Read(unit, Break), false);
    }
  }

  lemma AddUnitFollows(t: Tables, chunk: nat, flush: bool, p: Pieces, unit: string, whole: bool)
    requires KnowsAscii(t) && Sound(p, chunk) && unit != [] && Trimmed(unit) && (whole ==> |unit| <= chunk)
    ensures Follows(Reads(AddUnit(t, chunk, flush, p, unit)), Reads(p) + Read(unit, Break), whole)
  {
    AppendedFollows(t, chunk, p, unit, whole);
    FlushedReads(Appended(t, chunk, p, unit));
  }

  ghost predicate Short(units: seq<string>, chunk: nat) {
    forall i :: 0 <= i < |units| ==> |units[i]| <= chunk
  }

  lemma {:induction false} AddUnitsFollow(t: Tables, chunk: nat, flush: bool, p: Pieces, units: seq<string>,
                                          whole: bool)
    requires KnowsAscii(t) && Sound(p, chunk) && chunk >= 20 && Tidy(units) && (whole ==> Short(units, chunk))
    ensures Follows(Reads(AddUnits(t, chunk, flush, p, units)), Reads(p) + ReadAll(units), whole)
    decreases |units|
  {
    if units == [] {
      assert Reads(p) + [] == Reads(p);
      FollowsItself(Reads(p), whole);
    } else {
      var q := AddUnit(t, chunk, flush, p, units[0]);
      AddUnitSound(t, chunk, flush, p, units[0]);
      AddUnitFollows(t, chunk, flush, p, units[0], whole);
      AddUnitsFollow(t, chunk, flush, q, units[1..], whole);
      LoopFollows(Reads(p), Reads(q), Reads(AddUnits(t, chunk, flush, p, units)), Read(units[0], Break),
                  ReadAll(units[1..]), whole);
    }
  }

  lemma AddLineFollows(t: Tables, chunk: nat, policy: Policy, flush: bool, p: Pieces, line: string, whole: bool)
    requires KnowsAscii(t) && Sound(p, chunk) && chunk >= 20 && (whole ==> Short(Units(t, line), chunk))
    ensures Follows(Reads(AddLine(t, chunk, policy, flush, p, line)), Reads(p) + Read(line, Break), whole)
  {
    var units := Units(t, line);
    var q := AddUnits(t, chunk, flush, p, units);
    SentencesKeepTheText(t, line);
    AddUnitsFollow(t, chunk, flush, p, units, whole);
    FlushedReads(q);
    UnitsFollow(t, line);
    WholeOrNot(ReadAll(units), Read(line, Break), whole);
    BreaksFirst(units);
    FirstGap(line, Break);
    FollowsBehind(Reads(p), ReadAll(units), Read(line, Break), whole);
    FollowsOn(Reads(q), Reads(p) + ReadAll(units), Reads(p) + Read(line, Break), whole);
  }

  lemma ShortParts(a: seq<string>, b: seq<string>, chunk: nat)
    requires Short(a + b, chunk)
    ensures Short(a, chunk) && Short(b, chunk)
  {
    forall i | 0 <= i < |a| ensures |a[i]| <= chunk { assert (a + b)[i] == a[i]; }
    forall i | 0 <= i < |b| ensures |b[i]| <= chunk { assert (a + b)[|a| + i] == b[i]; }
  }

  lemma {:induction false} AddLinesFollow(t: Tables, chunk: nat, policy: Policy, flush: bool, p: Pieces,
                                          lines: seq<string>, whole: bool)
    requires KnowsAscii(t) && Sound(p, chunk) && chunk >= 20 && (whole ==> Short(UnitsOfLines(t, lines), chunk))
    ensures Follows(Reads(AddLines(t, chunk, policy, flush, p, lines)), Reads(p) + ReadAll(lines), whole)
    decreases |lines|
  {
    if lines == [] {
      assert Reads(p) + [] == Reads(p);
      FollowsItself(Reads(p), whole);
    } else {
      var q := AddLine(t, chunk, policy, flush, p, lines[0]);
      if whole { ShortParts(Units(t, lines[0]), UnitsOfLines(t, lines[1..]), chunk); }
      AddLineSound(t, chunk, policy, flush, p, lines[0]);
      AddLineFollows(t, chunk, policy, flush, p, lines[0], whole);
      AddLinesFollow(t, chunk, policy, flush, q, lines[1..], whole);
      LoopFollows(Reads(p), Reads(q), Reads(AddLines(t, chunk, policy, flush, p, lines)), Read(lines[0], Break),
                  ReadAll(lines[1..]), whole);
    }
  }

  // ---------- lines and paragraphs ----------

  function ReadParts(parts: seq<string>, g: Gap): seq<Seen>
    requires parts != []
  {
    Read(parts[0], g) + ReadAll(parts[1..])
  }

  lemma HeadRead(parts: seq<string>, c: char, g: Gap)
    requires parts != []
    ensures ReadParts([[c] + parts[0]] + parts[1..], g) ==
            if IsSpace(c) then ReadParts(parts, Spaced(g)) else [Seen(c, g)] + ReadParts(parts, Touch)
  {
    var more := [[c] + parts[0]] + parts[1..];
    assert more[1..] == parts[1..] && more[0][1..] == parts[0];
    if !IsSpace(c) { Associate([Seen(c, g)], Read(parts[0], Touch), ReadAll(parts[1..])); }
  }

  lemma EmptyHeadRead(parts: seq<string>, g: Gap)
    requires parts != []
    ensures ReadParts([""] + parts, g) == ReadParts(parts, Break)
  {
    assert ([""] + parts)[1..] == parts && Read("", g) == [];
    assert [] + ReadAll(parts) == ReadAll(parts);
  }

  /** A text cut at white space into these parts. */
  ghost predicate CutMildly(parts: seq<string>, s: string, g: Gap)
    requires parts != []
  {
    Follows(ReadParts(parts, g), Read(s, g), true) && Mild(ReadParts(parts, g), Read(s, g))
  }

  lemma HeadCut(parts: seq<string>, s: string, g: Gap)
    requires parts != [] && s != []
    requires CutMildly(parts, s[1..], if IsSpace(s[0]) then Spaced(g) else Touch)
    ensures CutMildly([[s[0]] + parts[0]] + parts[1..], s, g)
  {
    HeadRead(parts, s[0], g);
    if !IsSpace(s[0]) { FollowsBehind([Seen(s[0], g)], ReadParts(parts, Touch), Read(s[1..], Touch), true); }
  }

  lemma {:induction false} Cut(parts: seq<string>, s: string, g: Gap)
    requires parts != [] && CutMildly(parts, s, Break) && !g.Touch?
    ensures CutMildly([""] + parts, s, g)
  {
    EmptyHeadRead(parts, g);
    OtherGap(s, Break, g, true);
    FirstGap(s, g);
    FirstGap(s, Break);
    FollowsOn(ReadParts(parts, Break), Read(s, Break), Read(s, g), true);
    FirstPartGap(parts);
  }

  lemma FirstPartGap(parts: seq<string>)
    requires parts != []
    ensures ReadParts(parts, Break) == ReadAll(parts)
    ensures ReadAll(parts) != [] ==> ReadAll(parts)[0].gap.Break?
  {
    BreaksFirst(parts);
  }

  lemma {:induction false} SplitLinesFollow(s: string, g: Gap)
    ensures CutMildly(SplitLines(s), s, g)
  {
    if s == [] {
      assert ReadParts([""], g) == [];
    } else {
      var rest := SplitLines(s[1..]);
      if IsLineBreak(s[0]) {
        SplitLinesFollow(s[1..], Break);
        Cut(rest, s[1..], Spaced(g));
        EmptyHeadRead(rest, g);
        EmptyHeadRead(rest, Spaced(g));
      } else {
        SplitLinesFollow(s[1..], if IsSpace(s[0]) then Spaced(g) else Touch);
        HeadCut(rest, s, g);
      }
    }
  }

  lemma {:induction false} DropNewlinesRead(s: string, g: Gap)
    requires !g.Touch?
    ensures Read(DropNewlines(s), g) == Read(s, g)
  {
    if s != [] && s[0] == '\n' { DropNewlinesRead(s[1..], g); }
  }

  lemma {:induction false} ParagraphsFollow(s: string, g: Gap)
    ensures CutMildly(Paragraphs(s), s, g)
    decreases |s|
  {
    if s == [] {
      assert ReadParts([""], g) == [];
    } else if |s| >= 2 && s[0] == '\n' && s[1] == '\n' {
      var after := DropNewlines(s[2..]);
      var rest := Paragraphs(after);
      ParagraphsFollow(after, Break);
      Cut(rest, after, Spaced(g));
      DropNewlinesRead(s[2..], Spaced(g));
      assert s[1..][1..] == s[2..] && Spaced(Spaced(g)) == Spaced(g);
      assert Read(s, g) == Read(s[2..], Spaced(g));
      EmptyHeadRead(rest, g);
      EmptyHeadRead(rest, Spaced(g));
    } else {
      ParagraphsFollow(s[1..], if IsSpace(s[0]) then Spaced(g) else Touch);
      HeadCut(Paragraphs(s[1..]), s, g);
    }
  }

  lemma {:induction false} StrippedLinesRead(parts: seq<string>)
    ensures ReadAll(StrippedLines(parts)) == ReadAll(parts)
  {
    if parts != [] {
      StrippedLinesRead(parts[1..]);
      PieceRead(parts[0]);
      ReadAllConcat(Piece(parts[0]), StrippedLines(parts[1..]));
    }
  }

  lemma LinesFollow(paragraph: string)
    ensures Follows(ReadAll(Lines(paragraph)), Read(paragraph, Break), true)
  {
    SplitLinesFollow(paragraph, Break);
    StrippedLinesRead(SplitLines(paragraph));
  }

  lemma AddParagraphFollows(t: Tables, chunk: nat, policy: Policy, flush: bool, p: Pieces, paragraph: string,
                            whole: bool)
    requires KnowsAscii(t) && Sound(p, chunk) && chunk >= 20
    requires whole ==> var lines := Lines(paragraph);
                       lines != [] ==> Short(UnitsOfLines(t, Logical(t, policy, chunk, lines)), chunk)
    ensures Follows(Reads(AddParagraph(t, chunk, policy, flush, p, paragraph)), Reads(p) + Read(paragraph, Break),
                    whole)
  {
    var lines, target := Lines(paragraph), Reads(p) + Read(paragraph, Break);
    LinesKeep(paragraph);
    LinesFollow(paragraph);
    WholeOrNot(ReadAll(lines), Read(paragraph, Break), whole);
    BreaksFirst(lines);
    FirstGap(paragraph, Break);
    FollowsBehind(Reads(p), ReadAll(lines), Read(paragraph, Break), whole);
    if lines == [] {
      FlushedReads(p);
      assert Reads(p) + [] == Reads(p);
    } else {
      var logical := Logical(t, policy, chunk, lines);
      var q := AddLines(t, chunk, policy, flush, p, logical);
      LogicalFollows(t, policy, chunk, lines, whole);
      AddLinesFollow(t, chunk, policy, flush, p, logical, whole);
      FlushedReads(q);
      BreaksFirst(logical);
      FollowsBehind(Reads(p), ReadAll(logical), ReadAll(lines), whole);
      FollowsOn(Reads(q), Reads(p) + ReadAll(logical), Reads(p) + ReadAll(lines), whole);
      FollowsOn(Reads(q), Reads(p) + ReadAll(lines), target, whole);
    }
  }

  lemma {:induction false} AddParagraphsFollow(t: Tables, chunk: nat, policy: Policy, flush: bool, p: Pieces,
                                               paragraphs: seq<string>, whole: bool)
    requires KnowsAscii(t) && Sound(p, chunk) && chunk >= 20 && p.open == []
    requires whole ==> Short(UnitsOfParagraphs(t, policy, chunk, paragraphs), chunk)
    ensures Follows(Reads(AddParagraphs(t, chunk, policy, flush, p, paragraphs)), Reads(p) + ReadAll(paragraphs), whole)
    decreases |paragraphs|
  {
    if paragraphs == [] {
      assert Reads(p) + [] == Reads(p);
      FollowsItself(Reads(p), whole);
    } else {
      var q := AddParagraph(t, chunk, policy, flush, p, paragraphs[0]);
      var lines := Lines(paragraphs[0]);
      var units := if lines == [] then [] else UnitsOfLines(t, Logical(t, policy, chunk, lines));
      if whole { ShortParts(units, UnitsOfParagraphs(t, policy, chunk, paragraphs[1..]), chunk); }
      AddParagraphSound(t, chunk, policy, flush, p, paragraphs[0]);
      AddParagraphFollows(t, chunk, policy, flush, p, paragraphs[0], whole);
      AddParagraphsFollow(t, chunk, policy, flush, q, paragraphs[1..], whole);
      LoopFollows(Reads(p), Reads(q), Reads(AddParagraphs(t, chunk, policy, flush, p, paragraphs)),
                  Read(paragraphs[0], Break), ReadAll(paragraphs[1..]), whole);
    }
  }

  // ---------- the theorems ----------

  /** No sentence of the text is longer than a segment may be. */
  ghost predicate NoLongSentence(t: Tables, text: string, maxTextLength: int, segmentLength: int, policy: Policy) {
    var chunk := ChunkSize(segmentLength);
    Short(UnitsOfParagraphs(t, policy, chunk, Paragraphs(Kept(text, maxTextLength))), chunk)
  }

  /** The segments read like the text: the same visible characters; nothing is stuck together that was not, where
      English wants a blank; no blank is added anywhere else, so none beside a character that is not ASCII; and no
      word is torn, unless a sentence is longer than a segment may be. */
  lemma SegmentsReadLikeTheText(t: Tables, text: string, maxTextLength: int, segmentLength: int, policy: Policy,
                                flush: bool, whole: bool)
    requires KnowsAscii(t) && (whole ==> NoLongSentence(t, text, maxTextLength, segmentLength, policy))
    ensures Follows(ReadAll(Segments(t, text, maxTextLength, segmentLength, policy, flush)),
                    Read(Kept(text, maxTextLength), Break), whole)
  {
    var kept, chunk, start := Kept(text, maxTextLength), ChunkSize(segmentLength), Pieces([], "");
    var paragraphs := Paragraphs(kept);
    if Normalized(text) == [] {
      assert kept == [];
      FollowsItself([], whole);
    } else {
      FallbackIsNeverUsed(t, text, maxTextLength, segmentLength, policy, flush);
      AddParagraphsSound(t, chunk, policy, flush, start, paragraphs);
      AddParagraphsFollow(t, chunk, policy, flush, start, paragraphs, whole);
      NothingRead();
      assert [] + ReadAll(paragraphs) == ReadAll(paragraphs);
      var q := AddParagraphs(t, chunk, policy, flush, start, paragraphs);
      assert Reads(q) == ReadAll(q.done);
      ParagraphsFollow(kept, Break);
      FirstPartGap(paragraphs);
      WholeOrNot(ReadAll(paragraphs), Read(kept, Break), whole);
      FollowsOn(ReadAll(q.done), ReadAll(paragraphs), Read(kept, Break), whole);
    }
  }

  // ---------- words ----------

  /** One more letter: of the last word, or of a new one. */
  function Grown(words: seq<string>, c: char, more: bool): (grown: seq<string>)
    ensures grown != []
  {
    if more && words != [] then words[..|words| - 1] + [words[|words| - 1] + [c]] else words + [[c]]
  }

  /** The maximal runs of ASCII letters and digits of a text. */
  function Words(s: string): seq<string> {
    if s == [] then []
    else
      var front, c := s[..|s| - 1], s[|s| - 1];
      if IsWord(c) then Grown(Words(front), c, EndsInWord(front)) else Words(front)
  }

  predicate EndsInWord(s: string) {
    s != [] && IsWord(s[|s| - 1])
  }

  function WordsOf(parts: seq<string>): seq<string> {
    if parts == [] then [] else Words(parts[0]) + WordsOf(parts[1..])
  }

  /** The last letter read is right behind this one, if it is a letter. */
  predicate Continues(v: seq<Seen>, x: Seen) {
    v != [] && IsWord(v[|v| - 1].c) && x.gap.Touch?
  }

  /** The runs of ASCII letters and digits right behind one another in a reading. */
  function Runs(v: seq<Seen>): seq<string> {
    if v == [] then []
    else
      var front, x := v[..|v| - 1], v[|v| - 1];
      if IsWord(x.c) then Grown(Runs(front), x.c, Continues(front, x)) else Runs(front)
  }

  lemma RunsThen(v: seq<Seen>, x: Seen)
    ensures Runs(v + [x]) == if IsWord(x.c) then Grown(Runs(v), x.c, Continues(v, x)) else Runs(v)
  {
    var w := v + [x];
    assert w[..|w| - 1] == v && w[|w| - 1] == x;
  }

  lemma ReadThen(front: string, c: char)
    ensures Read(front + [c], Break) ==
            Read(front, Break) + (if IsSpace(c) then [] else [Seen(c, Left(front, Break))])
  {
    ReadConcat(front, [c], Break);
    assert [c][1..] == [];
  }

  lemma ContinuesWord(front: string, c: char)
    ensures Continues(Read(front, Break), Seen(c, Left(front, Break))) <==> EndsInWord(front)
  {
    if front != [] { LastOfRead(front, Break); }
  }

  lemma WordsThen(front: string, c: char)
    ensures Words(front + [c]) ==
            if IsWord(c) then Grown(Words(front), c, EndsInWord(front)) else Words(front)
  {
    var s := front + [c];
    assert s[..|s| - 1] == front && s[|s| - 1] == c;
  }

  lemma OneMoreCharacter(front: string, c: char)
    requires Words(front) == Runs(Read(front, Break))
    ensures Words(front + [c]) == Runs(Read(front + [c], Break))
  {
    WordsThen(front, c);
    ReadThen(front, c);
    var v := Read(front, Break);
    if IsSpace(c) {
      assert v + [] == v;
    } else {
      RunsThen(v, Seen(c, Left(front, Break)));
      ContinuesWord(front, c);
    }
  }

  lemma {:induction false} WordsAreRuns(s: string)
    ensures Words(s) == Runs(Read(s, Break))
  {
    if s != [] {
      var front := s[..|s| - 1];
      WordsAreRuns(front);
      OneMoreCharacter(front, s[|s| - 1]);
      assert front + [s[|s| - 1]] == s;
    }
  }

  lemma GrownBehind(a: seq<string>, b: seq<string>, c: char, more: bool)
    requires more ==> b != []
    ensures Grown(a + b, c, more) == a + Grown(b, c, more)
  {
  }

  lemma {:induction false} RunsOfWord(v: seq<Seen>)
    requires v != [] && IsWord(v[|v| - 1].c)
    ensures Runs(v) != []
  {
  }

  lemma RunsConcatThen(a: seq<Seen>, front: seq<Seen>, x: Seen)
    requires Runs(a + front) == Runs(a) + Runs(front) && (front == [] ==> x.gap.Break?)
    ensures Runs(a + front + [x]) == Runs(a) + Runs(front + [x])
  {
    RunsThen(a + front, x);
    RunsThen(front, x);
    assert Continues(a + front, x) <==> Continues(front, x);
    if Continues(front, x) { RunsOfWord(front); }
    GrownBehind(Runs(a), Runs(front), x.c, Continues(front, x));
  }

  lemma {:induction false} RunsConcat(a: seq<Seen>, b: seq<Seen>)
    requires b != [] ==> b[0].gap.Break?
    ensures Runs(a + b) == Runs(a) + Runs(b)
  {
    if b == [] {
      assert a + b == a && Runs(a) + [] == Runs(a);
    } else {
      var front, x := b[..|b| - 1], b[|b| - 1];
      RunsConcat(a, front);
      RunsConcatThen(a, front, x);
      assert a + b == a + front + [x] && b == front + [x];
    }
  }

  lemma {:induction false} WordsOfAreRuns(parts: seq<string>)
    ensures WordsOf(parts) == Runs(ReadAll(parts))
  {
    if parts != [] {
      WordsAreRuns(parts[0]);
      WordsOfAreRuns(parts[1..]);
      BreaksFirst(parts[1..]);
      RunsConcat(Read(parts[0], Break), ReadAll(parts[1..]));
    }
  }

  lemma {:induction false} SameRuns(a: seq<Seen>, b: seq<Seen>)
    requires Follows(a, b, true)
    ensures Runs(a) == Runs(b)
  {
    if a != [] {
      var n := |a| - 1;
      var f, h := a[..n], b[..n];
      forall i | 0 < i < |f| ensures MayBecome(h[i - 1].c, h[i].c, f[i].gap, h[i].gap, true) {
        assert MayBecome(b[i - 1].c, b[i].c, a[i].gap, b[i].gap, true);
      }
      SameRuns(f, h);
      if n > 0 { assert MayBecome(b[n - 1].c, b[n].c, a[n].gap, b[n].gap, true); }
      assert IsWord(a[n].c) ==> (Continues(f, a[n]) <==> Continues(h, b[n]));
    }
  }

  /** Under every policy, the words of the segments, in order, are those of the text, if no sentence is longer than a
      segment may be. */
  lemma WordsStayWholeAndApart(t: Tables, text: string, maxTextLength: int, segmentLength: int, policy: Policy,
                               flush: bool)
    requires KnowsAscii(t) && NoLongSentence(t, text, maxTextLength, segmentLength, policy)
    ensures WordsOf(Segments(t, text, maxTextLength, segmentLength, policy, flush)) == Words(Kept(text, maxTextLength))
  {
    var segments, kept := Segments(t, text, maxTextLength, segmentLength, policy, flush), Kept(text, maxTextLength);
    SegmentsReadLikeTheText(t, text, maxTextLength, segmentLength, policy, flush, true);
    SameRuns(ReadAll(segments), Read(kept, Break));
    WordsOfAreRuns(segments);
    WordsAreRuns(kept);
  }
}

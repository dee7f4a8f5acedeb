/** White space: what counts as such, stripping, and the normalisation a text goes through before it is segmented. */
module TextNormalization {

  /** `str.isspace`, which is also what `strip` removes. */
  predicate IsSpace(c: char) {
    var n := c as int;
    9 <= n <= 13 || 0x1c <= n <= 0x20 || n == 0x85 || n == 0xa0 || n == 0x1680 || 0x2000 <= n <= 0x200a
    || n == 0x2028 || n == 0x2029 || n == 0x202f || n == 0x205f || n == 0x3000
  }

  /** The control characters that become spaces; tab, newline and carriage return are not among them. */
  predicate IsControl(c: char) {
    var n := c as int;
    n <= 8 || n == 0x0b || n == 0x0c || 0x0e <= n <= 0x1f || n == 0x7f
  }

  function LStrip(s: string): string {
    if s != [] && IsSpace(s[0]) then LStrip(s[1..]) else s
  }

  function RStrip(s: string): string {
    if s != [] && IsSpace(s[|s| - 1]) then RStrip(s[..|s| - 1]) else s
  }

  function Strip(s: string): string {
    RStrip(LStrip(s))
  }

  /** Empty, or without white space at either end. */
  predicate Trimmed(s: string) {
    s != [] ==> !IsSpace(s[0]) && !IsSpace(s[|s| - 1])
  }

  /** The characters that are not white space, in order. */
  function NonSpace(s: string): string {
    if s == [] then [] else (if IsSpace(s[0]) then [] else [s[0]]) + NonSpace(s[1..])
  }

  /** The characters that are neither white space nor control characters, in order. */
  function Visible(s: string): string {
    if s == [] then [] else (if IsSpace(s[0]) || IsControl(s[0]) then [] else [s[0]]) + Visible(s[1..])
  }

  function Concat(parts: seq<string>): string {
    if parts == [] then [] else parts[0] + Concat(parts[1..])
  }

  // ---------- the passes of normalize_text_for_segmentation ----------

  function ReplaceCrLf(s: string): string {
    if |s| >= 2 && s[0] == '\r' && s[1] == '\n' then ['\n'] + ReplaceCrLf(s[2..])
    else if s == [] then [] else [s[0]] + ReplaceCrLf(s[1..])
  }

  function ReplaceCr(s: string): string {
    if s == [] then [] else [if s[0] == '\r' then '\n' else s[0]] + ReplaceCr(s[1..])
  }

  function ReplaceControls(s: string): string {
    if s == [] then [] else [if IsControl(s[0]) then ' ' else s[0]] + ReplaceControls(s[1..])
  }

  predicate IsBlank(c: char) {
    c == ' ' || c == '\t' || c as int == 0x0b || c as int == 0x0c
  }

  function DropBlanks(s: string): (r: string)
    ensures |r| <= |s|
  {
    if s != [] && IsBlank(s[0]) then DropBlanks(s[1..]) else s
  }

  /** A run of blanks becomes one space. */
  function CollapseBlanks(s: string): string
    decreases |s|
  {
    if s == [] then []
    else if IsBlank(s[0]) then [' '] + CollapseBlanks(DropBlanks(s[1..]))
    else [s[0]] + CollapseBlanks(s[1..])
  }

  function DropSpaces(s: string): (r: string)
    ensures |r| <= |s|
  {
    if s != [] && s[0] == ' ' then DropSpaces(s[1..]) else s
  }

  /** Spaces around a newline go. */
  function TrimAroundNewlines(s: string): string
    decreases |s|
  {
    if s == [] then []
    else
      var rest := DropSpaces(s);
      if rest != [] && rest[0] == '\n' then ['\n'] + TrimAroundNewlines(DropSpaces(rest[1..]))
      else [s[0]] + TrimAroundNewlines(s[1..])
  }

  function DropNewlines(s: string): (r: string)
    ensures |r| <= |s|
  {
    if s != [] && s[0] == '\n' then DropNewlines(s[1..]) else s
  }

  /** Three newlines or more become two. */
  function LimitNewlines(s: string): string
    decreases |s|
  {
    if s == [] then []
    else if |s| >= 3 && s[..3] == "\n\n\n" then ['\n', '\n'] + LimitNewlines(DropNewlines(s[3..]))
    else [s[0]] + LimitNewlines(s[1..])
  }

  function Normalized(text: string): string {
    Strip(LimitNewlines(TrimAroundNewlines(CollapseBlanks(ReplaceControls(ReplaceCr(ReplaceCrLf(text)))))))
  }

  // ---------- only white space is touched ----------

  lemma {:induction false} NonSpaceConcat(a: string, b: string)
    ensures NonSpace(a + b) == NonSpace(a) + NonSpace(b)
  {
    if a == [] {
      assert a + b == b;
    } else {
      assert (a + b)[1..] == a[1..] + b;
      NonSpaceConcat(a[1..], b);
    }
  }

  lemma NonSpaceChar(c: char, s: string)
    ensures NonSpace([c] + s) == (if IsSpace(c) then [] else [c]) + NonSpace(s)
  {
    assert ([c] + s)[1..] == s;
  }

  lemma {:induction false} LStripKeeps(s: string)
    ensures NonSpace(LStrip(s)) == NonSpace(s) && (LStrip(s) != [] ==> !IsSpace(LStrip(s)[0]))
    ensures |LStrip(s)| <= |s| && LStrip(s) == s[|s| - |LStrip(s)|..]
  {
    if s != [] && IsSpace(s[0]) { LStripKeeps(s[1..]); }
  }

  lemma {:induction false} RStripKeeps(s: string)
    ensures NonSpace(RStrip(s)) == NonSpace(s) && (RStrip(s) != [] ==> !IsSpace(RStrip(s)[|RStrip(s)| - 1]))
    ensures RStrip(s) <= s
  {
    if s != [] && IsSpace(s[|s| - 1]) {
      var front := s[..|s| - 1];
      RStripKeeps(front);
      NonSpaceConcat(front, [s[|s| - 1]]);
      assert front + [s[|s| - 1]] == s;
      assert NonSpace([s[|s| - 1]]) == [];
    }
  }

  lemma StripKeeps(s: string)
    ensures NonSpace(Strip(s)) == NonSpace(s) && Trimmed(Strip(s)) && |Strip(s)| <= |s|
    ensures Strip(s) == [] <==> NonSpace(s) == []
  {
    LStripKeeps(s);
    RStripKeeps(LStrip(s));
    if Strip(s) != [] { assert NonSpace(Strip(s)) != []; }
  }

  lemma StripTrimmed(s: string)
    requires Trimmed(s)
    ensures Strip(s) == s
  {
  }

  lemma {:induction false} ConcatConcat(a: seq<string>, b: seq<string>)
    ensures Concat(a + b) == Concat(a) + Concat(b)
  {
    if a == [] {
      assert a + b == b;
    } else {
      assert (a + b)[1..] == a[1..] + b;
      ConcatConcat(a[1..], b);
    }
  }

  lemma ConcatOne(a: seq<string>, s: string)
    ensures Concat(a + [s]) == Concat(a) + s
    ensures NonSpace(Concat(a + [s])) == NonSpace(Concat(a)) + NonSpace(s)
  {
    ConcatConcat(a, [s]);
    assert Concat([s]) == s;
    NonSpaceConcat(Concat(a), s);
  }

  lemma {:induction false} CrLfKeeps(s: string)
    ensures Visible(ReplaceCrLf(s)) == Visible(s)
    decreases |s|
  {
    if |s| >= 2 && s[0] == '\r' && s[1] == '\n' {
      CrLfKeeps(s[2..]);
      assert s[1..][1..] == s[2..];
    } else if s != [] {
      CrLfKeeps(s[1..]);
    }
  }

  lemma {:induction false} CrKeeps(s: string)
    ensures Visible(ReplaceCr(s)) == Visible(s)
  {
    if s != [] { CrKeeps(s[1..]); }
  }

  lemma {:induction false} ControlsKeep(s: string)
    ensures NonSpace(ReplaceControls(s)) == Visible(s)
  {
    if s != [] {
      ControlsKeep(s[1..]);
      NonSpaceChar(if IsControl(s[0]) then ' ' else s[0], ReplaceControls(s[1..]));
    }
  }

  lemma {:induction false} DropBlanksKeeps(s: string)
    ensures NonSpace(DropBlanks(s)) == NonSpace(s)
  {
    if s != [] && IsBlank(s[0]) { DropBlanksKeeps(s[1..]); }
  }

  lemma {:induction false} CollapseKeeps(s: string)
    ensures NonSpace(CollapseBlanks(s)) == NonSpace(s)
    decreases |s|
  {
    if s != [] {
      if IsBlank(s[0]) {
        DropBlanksKeeps(s[1..]);
        CollapseKeeps(DropBlanks(s[1..]));
        NonSpaceChar(' ', CollapseBlanks(DropBlanks(s[1..])));
      } else {
        CollapseKeeps(s[1..]);
        NonSpaceChar(s[0], CollapseBlanks(s[1..]));
      }
    }
  }

  lemma {:induction false} DropSpacesKeeps(s: string)
    ensures NonSpace(DropSpaces(s)) == NonSpace(s)
  {
    if s != [] && s[0] == ' ' { DropSpacesKeeps(s[1..]); }
  }

  lemma {:induction false} TrimAroundKeeps(s: string)
    ensures NonSpace(TrimAroundNewlines(s)) == NonSpace(s)
    decreases |s|
  {
    if s != [] {
      var rest := DropSpaces(s);
      DropSpacesKeeps(s);
      if rest != [] && rest[0] == '\n' {
        DropSpacesKeeps(rest[1..]);
        TrimAroundKeeps(DropSpaces(rest[1..]));
        NonSpaceChar('\n', TrimAroundNewlines(DropSpaces(rest[1..])));
      } else {
        TrimAroundKeeps(s[1..]);
        NonSpaceChar(s[0], TrimAroundNewlines(s[1..]));
      }
    }
  }

  lemma {:induction false} DropNewlinesKeeps(s: string)
    ensures NonSpace(DropNewlines(s)) == NonSpace(s)
  {
    if s != [] && s[0] == '\n' { DropNewlinesKeeps(s[1..]); }
  }

  lemma {:induction false} LimitKeeps(s: string)
    ensures NonSpace(LimitNewlines(s)) == NonSpace(s)
    decreases |s|
  {
    if s != [] {
      if |s| >= 3 && s[..3] == "\n\n\n" {
        var rest := DropNewlines(s[3..]);
        DropNewlinesKeeps(s[3..]);
        LimitKeeps(rest);
        NonSpaceConcat("\n\n", LimitNewlines(rest));
        NonSpaceConcat(s[..3], s[3..]);
        assert s[..3] + s[3..] == s;
        assert NonSpace("\n\n") == [] && NonSpace("\n\n\n") == [];
      } else {
        LimitKeeps(s[1..]);
        NonSpaceChar(s[0], LimitNewlines(s[1..]));
      }
    }
  }

  /** Normalising keeps every visible character in its place, turns control characters into white space, and leaves
      none at the ends. */
  lemma NormalizingKeepsVisibleText(text: string)
    ensures NonSpace(Normalized(text)) == Visible(text) && Trimmed(Normalized(text))
  {
    CrLfKeeps(text);
    CrKeeps(ReplaceCrLf(text));
    var a := ReplaceControls(ReplaceCr(ReplaceCrLf(text)));
    ControlsKeep(ReplaceCr(ReplaceCrLf(text)));
    CollapseKeeps(a);
    TrimAroundKeeps(CollapseBlanks(a));
    LimitKeeps(TrimAroundNewlines(CollapseBlanks(a)));
    StripKeeps(LimitNewlines(TrimAroundNewlines(CollapseBlanks(a))));
  }

  // ---------- paragraphs and lines ----------

  /** `re.split` at two newlines or more. */
  function Paragraphs(s: string): (parts: seq<string>)
    ensures parts != []
    decreases |s|
  {
    if s == [] then [""]
    else if |s| >= 2 && s[0] == '\n' && s[1] == '\n' then [""] + Paragraphs(DropNewlines(s[2..]))
    else
      var rest := Paragraphs(s[1..]);
      [[s[0]] + rest[0]] + rest[1..]
  }

  predicate IsLineBreak(c: char) {
    var n := c as int;
    10 <= n <= 13 || 0x1c <= n <= 0x1e || n == 0x85 || n == 0x2028 || n == 0x2029
  }

  /** `str.splitlines`, up to empty lines, which are dropped right afterwards. */
  function SplitLines(s: string): (parts: seq<string>)
    ensures parts != []
  {
    if s == [] then [""]
    else
      var rest := SplitLines(s[1..]);
      if IsLineBreak(s[0]) then [""] + rest else [[s[0]] + rest[0]] + rest[1..]
  }

  /** The stripped lines that are not empty. */
  function StrippedLines(parts: seq<string>): seq<string> {
    if parts == [] then []
    else (if Strip(parts[0]) == [] then [] else [Strip(parts[0])]) + StrippedLines(parts[1..])
  }

  function Lines(paragraph: string): seq<string> {
    StrippedLines(SplitLines(paragraph))
  }

  lemma ConcatHead(parts: seq<string>, c: char)
    requires parts != []
    ensures Concat([[c] + parts[0]] + parts[1..]) == [c] + Concat(parts)
  {
    var more := [[c] + parts[0]] + parts[1..];
    assert more[1..] == parts[1..];
  }

  lemma ConcatEmptyHead(parts: seq<string>)
    ensures Concat([""] + parts) == Concat(parts)
  {
    var more := [""] + parts;
    assert more[0] == "" && more[1..] == parts;
  }

  lemma {:induction false} ParagraphsKeep(s: string)
    ensures NonSpace(Concat(Paragraphs(s))) == NonSpace(s)
    decreases |s|
  {
    if s == [] {
      assert Concat([""]) == "";
    } else if |s| >= 2 && s[0] == '\n' && s[1] == '\n' {
      var rest := DropNewlines(s[2..]);
      DropNewlinesKeeps(s[2..]);
      ParagraphsKeep(rest);
      ConcatEmptyHead(Paragraphs(rest));
      assert s[1..][1..] == s[2..];
      assert NonSpace(s) == NonSpace(s[1..]) == NonSpace(s[2..]);
    } else {
      ParagraphsKeep(s[1..]);
      ConcatHead(Paragraphs(s[1..]), s[0]);
      NonSpaceChar(s[0], Concat(Paragraphs(s[1..])));
    }
  }

  lemma {:induction false} SplitLinesKeeps(s: string)
    ensures NonSpace(Concat(SplitLines(s))) == NonSpace(s)
  {
    if s == [] {
      assert Concat([""]) == "";
    } else {
      var rest := SplitLines(s[1..]);
      SplitLinesKeeps(s[1..]);
      if IsLineBreak(s[0]) {
        ConcatEmptyHead(rest);
      } else {
        ConcatHead(rest, s[0]);
        NonSpaceChar(s[0], Concat(rest));
      }
    }
  }

  /** Non-empty pieces without white space at their ends. */
  ghost predicate Tidy(parts: seq<string>) {
    forall i :: 0 <= i < |parts| ==> parts[i] != [] && Trimmed(parts[i])
  }

  lemma {:induction false} StrippedLinesKeep(parts: seq<string>)
    ensures NonSpace(Concat(StrippedLines(parts))) == NonSpace(Concat(parts)) && Tidy(StrippedLines(parts))
  {
    if parts != [] {
      StrippedLinesKeep(parts[1..]);
      StripKeeps(parts[0]);
      NonSpaceConcat(parts[0], Concat(parts[1..]));
      var rest := StrippedLines(parts[1..]);
      if Strip(parts[0]) == [] {
        assert StrippedLines(parts) == rest;
      } else {
        NonSpaceConcat(Strip(parts[0]), Concat(rest));
        assert StrippedLines(parts)[1..] == rest;
      }
    }
  }

  lemma LinesKeep(paragraph: string)
    ensures NonSpace(Concat(Lines(paragraph))) == NonSpace(paragraph) && Tidy(Lines(paragraph))
  {
    SplitLinesKeeps(paragraph);
    StrippedLinesKeep(SplitLines(paragraph));
  }
}

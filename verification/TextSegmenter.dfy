/** The natural sentence segmenter: a text becomes a list of pieces for the speech model, cut at natural boundaries.
    The functions say what each loop computes; TextSegmenterProofs says what that is good for. */
module TextSegmenter {
  import opened TextNormalization

  /** The parts of the Unicode character database the segmenter consults. */
  datatype Tables = Tables(isAlnum: char -> bool, isDigit: char -> bool, isDecimal: char -> bool, lower: char -> string)

  datatype Policy = Auto | Preserve | Space

  /** Finished pieces and the text still being collected for the next one. */
  datatype Pieces = Pieces(done: seq<string>, open: string)

  const HARD_PUNCT := "。！？!?；;"
  const SOFT_PUNCT := "，,、：:"
  const CLOSERS := "”’》」』）)]}】〉"
  const BULLETS := "-*•"
  const NUMERALS := "一二三四五六七八九十"
  const NO_SPACE_BEFORE := ",.!?;:)]}”’\"'"
  const SPACE_AFTER := ".!?;:)]}”’\"'"
  const ABBREVIATIONS := ["mr.", "mrs.", "ms.", "dr.", "prof.", "sr.", "jr.", "st.", "vs.", "etc.", "e.g.", "i.e."]

  function Max(a: int, b: int): int {
    if a < b then b else a
  }

  function Min(a: int, b: int): int {
    if a < b then a else b
  }

  predicate IsAscii(c: char) {
    c as int < 128
  }

  predicate IsAsciiLetter(c: char) {
    'a' <= c <= 'z' || 'A' <= c <= 'Z'
  }

  predicate IsAsciiWordChar(c: char) {
    IsAsciiLetter(c) || '0' <= c <= '9' || c == '_' || c == '-'
  }

  function LowerAll(t: Tables, s: string): string {
    if s == [] then [] else t.lower(s[0]) + LowerAll(t, s[1..])
  }

  predicate EndsWith(s: string, suffix: string) {
    |suffix| <= |s| && s[|s| - |suffix|..] == suffix
  }

  function ParsePolicy(t: Tables, text: string): Policy {
    var p := LowerAll(t, Strip(if text == "" then "auto" else text));
    if p == "preserve" then Preserve else if p == "space" then Space else Auto
  }

  // ---------- what kind of line, character or position ----------

  predicate EndsSentence(line: string) {
    line != [] && (line[|line| - 1] in HARD_PUNCT || line[|line| - 1] in CLOSERS || EndsWith(line, "..."))
  }

  /** At least one character from `what` and then one from `marks`, from `i` on. */
  predicate NumberedFrom(line: string, i: nat, what: char -> bool, marks: string)
    requires i <= |line|
    decreases |line| - i
  {
    i < |line| && what(line[i]) && i + 1 < |line|
    && (line[i + 1] in marks || NumberedFrom(line, i + 1, what, marks))
  }

  predicate IsNumeral(c: char) {
    c in NUMERALS
  }

  predicate LooksLikeListItem(t: Tables, line: string) {
    line != []
    && (line[0] in BULLETS || NumberedFrom(line, 0, t.isDecimal, ".)、")
        || NumberedFrom(line, 0, IsNumeral, "、."))
  }

  predicate LooksLikeTitle(line: string) {
    var s := Strip(line);
    s != [] && |s| <= 24 && !EndsSentence(s) && ((exists c :: c in s && IsAsciiLetter(c)) || |s| <= 8)
  }

  predicate LooksLikeStandaloneLine(t: Tables, line: string) {
    LooksLikeListItem(t, line) || LooksLikeTitle(line)
  }

  predicate NeedsSpace(t: Tables, left: string, right: string) {
    left != [] && right != []
    && var l, r := left[|left| - 1], right[0];
       IsAscii(l) && IsAscii(r) && r !in NO_SPACE_BEFORE && !IsSpace(l) && !IsSpace(r)
       && (t.isAlnum(l) || l in SPACE_AFTER)
  }

  predicate IsEnglishPeriodBoundary(t: Tables, text: string, i: nat)
    requires i < |text|
  {
    var next := i + 1 < |text|;
    !(i > 0 && next && t.isDigit(text[i - 1]) && t.isDigit(text[i + 1]))
    && !(i > 0 && next && t.isAlnum(text[i - 1]) && t.isAlnum(text[i + 1]))
    && (var prefix := LowerAll(t, text[Max(0, i - 8)..i + 1]);
        forall k :: 0 <= k < |ABBREVIATIONS| ==> !EndsWith(prefix, ABBREVIATIONS[k]))
    && (!next || IsSpace(text[i + 1]) || text[i + 1] in CLOSERS)
  }

  predicate IsBoundary(t: Tables, text: string, i: nat)
    requires i < |text|
  {
    var c := text[i];
    c == '\n' || c in HARD_PUNCT || (c == '.' && IsEnglishPeriodBoundary(t, text, i))
    || ((c == '…' || c == '—') && (i + 1 >= |text| || text[i + 1] != c))
  }

  predicate SafePunctSplit(t: Tables, text: string, i: nat)
    requires i < |text|
  {
    !(text[i] in SOFT_PUNCT && i > 0 && i + 1 < |text| && t.isDigit(text[i - 1]) && t.isDigit(text[i + 1]))
  }

  /** A cut right after position `i` is allowed for the sake of the marks in `marks`. */
  predicate SplitsAfter(t: Tables, text: string, marks: string, i: nat)
    requires i < |text|
  {
    text[i] in marks && (text[i] == ' ' || SafePunctSplit(t, text, i))
  }

  // ---------- what the loops compute ----------

  function JoinStep(t: Tables, value: string, line: string): string {
    var l := Strip(line);
    if l == [] then value
    else if value == [] then l
    else if NeedsSpace(t, value, l) then value + " " + l else value + l
  }

  function JoinFrom(t: Tables, value: string, lines: seq<string>): string
    decreases |lines|
  {
    if lines == [] then value else JoinFrom(t, JoinStep(t, value, lines[0]), lines[1..])
  }

  /** The open text becomes a piece, if there is any. */
  function Flushed(p: Pieces): Pieces {
    Pieces(if Strip(p.open) == [] then p.done else p.done + [Strip(p.open)], "")
  }

  function Extended(p: Pieces, parts: seq<string>): Pieces {
    p.(done := p.done + parts)
  }

  function GroupLimit(chunk: int): int {
    Max(20, chunk * 45 / 100)
  }

  function JoinedOpen(t: Tables, open: string, line: string): string {
    if open != [] then JoinFrom(t, "", [open, line]) else line
  }

  function GroupStep(t: Tables, chunk: int, p: Pieces, line: string): Pieces {
    if LooksLikeStandaloneLine(t, line) then Extended(Flushed(p), [line])
    else
      var joined := p.(open := JoinedOpen(t, p.open, line));
      if EndsSentence(line) && |joined.open| >= GroupLimit(chunk) then Flushed(joined) else joined
  }

  function GroupFrom(t: Tables, chunk: int, p: Pieces, lines: seq<string>): Pieces
    decreases |lines|
  {
    if lines == [] then p else GroupFrom(t, chunk, GroupStep(t, chunk, p, lines[0]), lines[1..])
  }

  function Logical(t: Tables, policy: Policy, chunk: int, lines: seq<string>): seq<string> {
    match policy
    case Preserve => lines
    case Space => [JoinFrom(t, "", lines)]
    case Auto =>
      var groups := Flushed(GroupFrom(t, chunk, Pieces([], ""), lines)).done;
      if groups == [] then lines else groups
  }

  function SkipClosers(text: string, i: nat): (end: nat)
    requires i <= |text|
    ensures i <= end <= |text|
    decreases |text| - i
  {
    if i < |text| && text[i] in CLOSERS then SkipClosers(text, i + 1) else i
  }

  function Piece(s: string): seq<string> {
    if Strip(s) == [] then [] else [Strip(s)]
  }

  /** The sentences of `text[start..]`, the first of which reaches at least up to `i`. */
  function UnitsFrom(t: Tables, text: string, start: nat, i: nat): seq<string>
    requires start <= i <= |text|
    decreases |text| - i
  {
    if i == |text| then Piece(text[start..])
    else if IsBoundary(t, text, i) then
      var end := SkipClosers(text, i + 1);
      Piece(text[start..end]) + UnitsFrom(t, text, end, end)
    else UnitsFrom(t, text, start, i + 1)
  }

  function Units(t: Tables, text: string): seq<string> {
    UnitsFrom(t, text, 0, 0)
  }

  function MinIndex(chunk: int): int {
    Max(20, chunk * 55 / 100)
  }

  /** The last place in `lo..hi` after which the marks allow a cut; -1 if there is none. */
  function LastMark(t: Tables, text: string, marks: string, lo: nat, hi: int): (i: int)
    requires hi < |text|
    ensures i == -1 || lo <= i <= hi
    decreases hi - lo
  {
    if hi < lo then -1
    else if SplitsAfter(t, text, marks, hi) then hi
    else LastMark(t, text, marks, lo, hi - 1)
  }

  predicate AfterSpace(text: string, i: int)
    requires 1 <= i <= |text|
  {
    IsSpace(text[i - 1])
  }

  /** The last place in `lo..hi` right after white space; -1 if there is none. */
  function LastAfterSpace(text: string, lo: nat, hi: int): (i: int)
    requires 1 <= lo && hi <= |text|
    ensures i == -1 || lo <= i <= hi
    decreases hi - lo
  {
    if hi < lo then -1
    else if AfterSpace(text, hi) then hi
    else LastAfterSpace(text, lo, hi - 1)
  }

  /** Both sides of place `i` are word characters. */
  predicate InsideWord(text: string, i: int)
    requires 1 <= i <= |text|
  {
    i < |text| && IsAsciiWordChar(text[i - 1]) && IsAsciiWordChar(text[i])
  }

  function OutOfWord(text: string, lo: nat, i: int): (r: int)
    requires 1 <= lo && i <= |text|
    ensures r <= i && (r == i || lo <= r)
    decreases i - lo
  {
    if i > lo && InsideWord(text, i) then OutOfWord(text, lo, i - 1) else i
  }

  /** Where a text without a usable mark is cut. */
  function HardSplit(text: string, chunk: nat): (r: nat)
    requires text != []
    ensures 1 <= r <= |text| && r <= chunk + 1
  {
    var lo, top := MinIndex(chunk), Min(|text|, chunk);
    var near := LastAfterSpace(text, lo, top);
    if near != -1 then near else Max(1, OutOfWord(text, lo, top))
  }

  function BestSplit(t: Tables, text: string, chunk: nat): (r: nat)
    requires text != []
    ensures 1 <= r <= |text| && r <= chunk + 1
  {
    var lo := MinIndex(chunk);
    var top := Min(|text|, chunk + 1) - 1;
    var soft := LastMark(t, text, SOFT_PUNCT, lo, top);
    var blank := LastMark(t, text, " ", lo, top);
    if soft != -1 then soft + 1
    else if blank != -1 then blank + 1
    else HardSplit(text, chunk)
  }

  /** What is left after the first cut. */
  function AfterSplit(t: Tables, remaining: string, chunk: nat): (rest: string)
    requires remaining != []
    ensures |rest| < |remaining|
  {
    var at := BestSplit(t, remaining, chunk);
    LStripKeeps(remaining[at..]);
    LStrip(remaining[at..])
  }

  /** The parts a unit is cut into. */
  function SplitFrom(t: Tables, remaining: string, chunk: nat): seq<string>
    decreases |remaining|
  {
    if |remaining| <= chunk then (if remaining == [] then [] else [remaining])
    else Piece(remaining[..BestSplit(t, remaining, chunk)]) + SplitFrom(t, AfterSplit(t, remaining, chunk), chunk)
  }

  /** Pieces with room for a unit of `size` characters behind the open text. */
  function WithRoom(chunk: nat, p: Pieces, size: nat): Pieces {
    if p.open != [] && |p.open| + size + 1 > chunk then Flushed(p) else p
  }

  function Glued(t: Tables, open: string, unit: string): string {
    if open != [] && NeedsSpace(t, open, unit) then Strip(open + " " + unit) else open + unit
  }

  function Attached(t: Tables, p: Pieces, unit: string): Pieces {
    p.(open := Glued(t, p.open, unit))
  }

  function Appended(t: Tables, chunk: nat, p: Pieces, unit: string): Pieces {
    var u := Strip(unit);
    if u == [] then p
    else if |u| <= chunk then Attached(t, WithRoom(chunk, p, |u|), u)
    else Extended(Flushed(WithRoom(chunk, p, |u|)), SplitFrom(t, Strip(u), chunk))
  }

  function AddUnit(t: Tables, chunk: nat, flush: bool, p: Pieces, unit: string): Pieces {
    var q := Appended(t, chunk, p, unit);
    if flush && Strip(unit) != [] then Flushed(q) else q
  }

  function AddUnits(t: Tables, chunk: nat, flush: bool, p: Pieces, units: seq<string>): Pieces
    decreases |units|
  {
    if units == [] then p else AddUnits(t, chunk, flush, AddUnit(t, chunk, flush, p, units[0]), units[1..])
  }

  function AddLine(t: Tables, chunk: nat, policy: Policy, flush: bool, p: Pieces, line: string): Pieces {
    var q := AddUnits(t, chunk, flush, p, Units(t, line));
    if policy == Preserve || LooksLikeStandaloneLine(t, line) then Flushed(q) else q
  }

  function AddLines(t: Tables, chunk: nat, policy: Policy, flush: bool, p: Pieces, lines: seq<string>): Pieces
    decreases |lines|
  {
    if lines == [] then p
    else AddLines(t, chunk, policy, flush, AddLine(t, chunk, policy, flush, p, lines[0]), lines[1..])
  }

  function AddParagraph(t: Tables, chunk: nat, policy: Policy, flush: bool, p: Pieces, paragraph: string): Pieces {
    var lines := Lines(paragraph);
    if lines == [] then Flushed(p)
    else Flushed(AddLines(t, chunk, policy, flush, p, Logical(t, policy, chunk, lines)))
  }

  function AddParagraphs(t: Tables, chunk: nat, policy: Policy, flush: bool, p: Pieces, paragraphs: seq<string>): Pieces
    decreases |paragraphs|
  {
    if paragraphs == [] then p
    else
      AddParagraphs(t, chunk, policy, flush, AddParagraph(t, chunk, policy, flush, p, paragraphs[0]), paragraphs[1..])
  }

  function ChunkSize(segmentLength: int): nat {
    Max(40, segmentLength)
  }

  /** The part of the normalised text that is kept. */
  function Kept(text: string, maxTextLength: int): string {
    var n := Normalized(text);
    n[..Min(|n|, Max(1, maxTextLength))]
  }

  /** The collected segments, before the fallback. */
  function Collected(t: Tables, text: string, maxTextLength: int, segmentLength: int, policy: Policy, flush: bool)
    : seq<string>
  {
    AddParagraphs(t, ChunkSize(segmentLength), policy, flush, Pieces([], ""),
                  Paragraphs(Kept(text, maxTextLength))).done
  }

  function Segments(t: Tables, text: string, maxTextLength: int, segmentLength: int, policy: Policy, flush: bool)
    : seq<string>
  {
    if Normalized(text) == [] then []
    else
      var segments := Collected(t, text, maxTextLength, segmentLength, policy, flush);
      if segments == [] then [Kept(text, maxTextLength)] else segments
  }

  // ---------- the loops ----------

  method JoinTextLines(t: Tables, lines: seq<string>) returns (value: string)
    ensures value == JoinFrom(t, "", lines)
  {
    value := "";
    for i := 0 to |lines|
      invariant JoinFrom(t, value, lines[i..]) == JoinFrom(t, "", lines)
    {
      assert lines[i..][1..] == lines[i + 1..];
      var line := Strip(lines[i]);
      if line == [] { continue; }
      if value == [] {
        value := line;
      } else {
        value := if NeedsSpace(t, value, line) then value + " " + line else value + line;
      }
    }
  }

  method LogicalLines(t: Tables, lines: seq<string>, policy: Policy, chunk: int) returns (r: seq<string>)
    ensures r == Logical(t, policy, chunk, lines)
  {
    if policy == Preserve { return lines; }
    if policy == Space {
      var joined := JoinTextLines(t, lines);
      return [joined];
    }
    var groups, buffer := [], "";
    for i := 0 to |lines|
      invariant GroupFrom(t, chunk, Pieces(groups, buffer), lines[i..]) == GroupFrom(t, chunk, Pieces([], ""), lines)
    {
      assert lines[i..][1..] == lines[i + 1..];
      var line := lines[i];
      if LooksLikeListItem(t, line) || LooksLikeTitle(line) {
        if Strip(buffer) != [] { groups := groups + [Strip(buffer)]; }
        buffer := "";
        groups := groups + [line];
        continue;
      }
      if buffer != [] {
        buffer := JoinTextLines(t, [buffer, line]);
      } else {
        buffer := line;
      }
      if EndsSentence(line) && |buffer| >= Max(20, chunk * 45 / 100) {
        if Strip(buffer) != [] { groups := groups + [Strip(buffer)]; }
        buffer := "";
      }
    }
    if Strip(buffer) != [] { groups := groups + [Strip(buffer)]; }
    return if groups != [] then groups else lines;
  }

  method SentenceUnits(t: Tables, text: string) returns (units: seq<string>)
    ensures units == Units(t, text)
  {
    units := [];
    var start, i, n := 0, 0, |text|;
    while i < n
      invariant start <= i <= n
      invariant units + UnitsFrom(t, text, start, i) == Units(t, text)
    {
      if IsBoundary(t, text, i) {
        var end := i + 1;
        while end < n && text[end] in CLOSERS
          invariant i + 1 <= end <= n
          invariant SkipClosers(text, end) == SkipClosers(text, i + 1)
        {
          end := end + 1;
        }
        UnitStep(t, units, text, start, i);
        var piece := Strip(text[start..end]);
        if piece != [] { units := units + [piece]; }
        start := end;
        i := end;
        continue;
      }
      i := i + 1;
    }
    var tail := Strip(text[start..]);
    if tail != [] { units := units + [tail]; }
  }

  /** One round of the search for a mark in the window, from its end. */
  method FindMark(t: Tables, text: string, marks: string, minIndex: nat, window: string) returns (i: int)
    requires window <= text
    ensures i == LastMark(t, text, marks, minIndex, |window| - 1)
  {
    i := |window| - 1;
    while i >= minIndex
      invariant i < |window|
      invariant LastMark(t, text, marks, minIndex, i) == LastMark(t, text, marks, minIndex, |window| - 1)
    {
      if window[i] in marks && (window[i] == ' ' || SafePunctSplit(t, text, i)) { return; }
      i := i - 1;
    }
    i := -1;
  }

  /** The last two loops of the search. */
  method HardSplitIndex(text: string, chunk: nat) returns (r: nat)
    requires text != []
    ensures r == HardSplit(text, chunk)
  {
    var minIndex := Max(20, chunk * 55 / 100);
    var near := Min(|text|, chunk);
    while near >= minIndex
      invariant near <= Min(|text|, chunk)
      invariant LastAfterSpace(text, minIndex, near) == LastAfterSpace(text, minIndex, Min(|text|, chunk))
    {
      if IsSpace(text[near - 1]) { return near; }
      near := near - 1;
    }
    var i := Min(|text|, chunk);
    while i > minIndex && IsAsciiWordChar(text[i - 1]) && i < |text| && IsAsciiWordChar(text[i])
      invariant i <= Min(|text|, chunk)
      invariant OutOfWord(text, minIndex, i) == OutOfWord(text, minIndex, Min(|text|, chunk))
    {
      i := i - 1;
    }
    return Max(1, i);
  }

  method BestSplitIndex(t: Tables, text: string, chunk: nat) returns (r: nat)
    requires text != []
    ensures r == BestSplit(t, text, chunk)
  {
    var minIndex := Max(20, chunk * 55 / 100);
    var window := text[..Min(|text|, chunk + 1)];
    var soft := FindMark(t, text, SOFT_PUNCT, minIndex, window);
    if soft != -1 { return soft + 1; }
    var blank := FindMark(t, text, " ", minIndex, window);
    if blank != -1 { return blank + 1; }
    r := HardSplitIndex(text, chunk);
  }

  lemma SplitStep(t: Tables, parts: seq<string>, remaining: string, chunk: nat)
    requires |remaining| > chunk
    ensures parts + SplitFrom(t, remaining, chunk)
         == parts + Piece(remaining[..BestSplit(t, remaining, chunk)])
            + SplitFrom(t, AfterSplit(t, remaining, chunk), chunk)
  {
    var piece := Piece(remaining[..BestSplit(t, remaining, chunk)]);
    var rest := SplitFrom(t, AfterSplit(t, remaining, chunk), chunk);
    assert SplitFrom(t, remaining, chunk) == piece + rest;
    assert parts + (piece + rest) == parts + piece + rest;
  }

  lemma UnitStep(t: Tables, units: seq<string>, text: string, start: nat, i: nat)
    requires start <= i < |text| && IsBoundary(t, text, i)
    ensures units + UnitsFrom(t, text, start, i)
         == units + Piece(text[start..SkipClosers(text, i + 1)])
            + UnitsFrom(t, text, SkipClosers(text, i + 1), SkipClosers(text, i + 1))
  {
    var end := SkipClosers(text, i + 1);
    var piece := Piece(text[start..end]);
    var rest := UnitsFrom(t, text, end, end);
    assert UnitsFrom(t, text, start, i) == piece + rest;
    assert units + (piece + rest) == units + piece + rest;
  }

  /** One round of the loop below: the piece cut off, if it is not blank, and what remains. */
  method CutOff(t: Tables, remaining: string, chunk: nat) returns (piece: seq<string>, rest: string)
    requires remaining != []
    ensures piece == Piece(remaining[..BestSplit(t, remaining, chunk)]) && rest == AfterSplit(t, remaining, chunk)
  {
    var at := BestSplitIndex(t, remaining, chunk);
    piece := if Strip(remaining[..at]) != [] then [Strip(remaining[..at])] else [];
    rest := LStrip(remaining[at..]);
  }

  method SplitLongUnit(t: Tables, text: string, chunk: nat) returns (parts: seq<string>)
    ensures parts == SplitFrom(t, Strip(text), chunk)
  {
    parts := [];
    var remaining := Strip(text);
    while |remaining| > chunk
      invariant parts + SplitFrom(t, remaining, chunk) == SplitFrom(t, Strip(text), chunk)
      decreases |remaining|
    {
      SplitStep(t, parts, remaining, chunk);
      var piece, rest := CutOff(t, remaining, chunk);
      parts := parts + piece;
      remaining := rest;
    }
    if remaining != [] { parts := parts + [remaining]; }
  }

  /** The segment list and the text collected so far, which the two nested functions of the segmenter update. */
  class Collector {
    const t: Tables
    const chunk: nat
    var segments: seq<string>
    var current: string

    ghost function Contents(): Pieces
      reads this
    {
      Pieces(segments, current)
    }

    constructor (t: Tables, chunk: nat)
      ensures this.t == t && this.chunk == chunk && Contents() == Pieces([], "")
    {
      this.t, this.chunk, segments, current := t, chunk, [], "";
    }

    method FlushCurrent()
      modifies this
      ensures Contents() == Flushed(old(Contents()))
    {
      var piece := Strip(current);
      if piece != [] { segments := segments + [piece]; }
      current := "";
    }

    method AppendUnit(unit0: string)
      modifies this
      ensures Contents() == Appended(t, chunk, old(Contents()), unit0)
    {
      var unit := Strip(unit0);
      if unit == [] { return; }
      if current != [] && |current| + |unit| + 1 > chunk {
        FlushCurrent();
      }
      if |unit| <= chunk {
        current := if current != [] && NeedsSpace(t, current, unit) then Strip(current + " " + unit)
                   else current + unit;
        return;
      }
      FlushCurrent();
      var parts := SplitLongUnit(t, unit, chunk);
      segments := segments + parts;
    }

    /** The innermost loop, over the sentences of one logical line. */
    method AppendLine(line: string, policy: Policy, flush: bool)
      modifies this
      ensures Contents() == AddLine(t, chunk, policy, flush, old(Contents()), line)
    {
      var units := SentenceUnits(t, line);
      for i := 0 to |units|
        invariant AddUnits(t, chunk, flush, Contents(), units[i..]) == AddUnits(t, chunk, flush, old(Contents()), units)
      {
        assert units[i..][1..] == units[i + 1..];
        AppendUnit(units[i]);
        if flush && Strip(units[i]) != [] { FlushCurrent(); }
      }
      if policy == Preserve || LooksLikeStandaloneLine(t, line) { FlushCurrent(); }
    }

    method AppendLines(lines: seq<string>, policy: Policy, flush: bool)
      modifies this
      ensures Contents() == AddLines(t, chunk, policy, flush, old(Contents()), lines)
    {
      for i := 0 to |lines|
        invariant AddLines(t, chunk, policy, flush, Contents(), lines[i..])
               == AddLines(t, chunk, policy, flush, old(Contents()), lines)
      {
        assert lines[i..][1..] == lines[i + 1..];
        AppendLine(lines[i], policy, flush);
      }
    }

    method AppendParagraph(paragraph: string, policy: Policy, flush: bool)
      modifies this
      ensures Contents() == AddParagraph(t, chunk, policy, flush, old(Contents()), paragraph)
    {
      var lines := Lines(paragraph);
      if lines == [] {
        FlushCurrent();
        return;
      }
      var logical := LogicalLines(t, lines, policy, chunk);
      AppendLines(logical, policy, flush);
      FlushCurrent();
    }
  }

  method SegmentTextNatural(t: Tables, text: string, maxTextLength: int, segmentLength: int, newlinePolicy: string,
                            flush: bool) returns (r: seq<string>)
    ensures r == Segments(t, text, maxTextLength, segmentLength, ParsePolicy(t, newlinePolicy), flush)
  {
    var normalized := Normalized(text);
    if normalized == [] { return []; }
    var limit := Max(1, maxTextLength);
    var policy := ParsePolicy(t, newlinePolicy);
    normalized := normalized[..Min(|normalized|, limit)];
    var paragraphs := Paragraphs(normalized);
    var collector := new Collector(t, Max(40, segmentLength));
    for i := 0 to |paragraphs|
      invariant fresh(collector)
      invariant AddParagraphs(t, collector.chunk, policy, flush, collector.Contents(), paragraphs[i..])
             == AddParagraphs(t, collector.chunk, policy, flush, Pieces([], ""), paragraphs)
    {
      assert paragraphs[i..][1..] == paragraphs[i + 1..];
      collector.AppendParagraph(paragraphs[i], policy, flush);
    }
    return if collector.segments != [] then collector.segments else [normalized];
  }
}

/** How full the segments are: sentences are collected as long as they fit, so that no segment could have taken the next
    one in. */
module TextPacking {
  import opened TextNormalization
  import opened TextSegmenter
  import opened TextSegmenterProofs
  import opened TextSeams

  /** Together, and with a blank between, the two would be longer than a segment may be. */
  predicate TooLong(a: string, b: string, chunk: nat) {
    |a| + 1 + |b| > chunk
  }

  ghost predicate Packed(parts: seq<string>, chunk: nat) {
    forall i :: 0 < i < |parts| ==> TooLong(parts[i - 1], parts[i], chunk)
  }

  /** The finished segments are packed, and so is the last of them with what is being collected. */
  ghost predicate Packing(p: Pieces, chunk: nat) {
    && Packed(p.done, chunk) && Trimmed(p.open)
    && (p.done != [] && p.open != [] ==> TooLong(p.done[|p.done| - 1], p.open, chunk))
    && (p.open == [] ==> p.done == [])
  }

  lemma AppendedPacks(t: Tables, chunk: nat, p: Pieces, unit: string)
    requires Packing(p, chunk) && unit != [] && Trimmed(unit) && |unit| <= chunk
    ensures var q := Appended(t, chunk, p, unit); Packing(q, chunk) && |q.open| >= |unit|
  {
    StripTrimmed(unit);
    StripTrimmed(p.open);
    var r := WithRoom(chunk, p, |unit|);
    if r.open == [] {
      assert r.open + unit == unit;
    } else {
      GluedTrimmed(r.open, unit);
      StripTrimmed(r.open + " " + unit);
    }
  }

  lemma {:induction false} AddUnitsPack(t: Tables, chunk: nat, p: Pieces, units: seq<string>)
    requires Packing(p, chunk) && Tidy(units) && Short(units, chunk)
    ensures Packing(AddUnits(t, chunk, false, p, units), chunk)
    decreases |units|
  {
    if units != [] {
      AppendedPacks(t, chunk, p, units[0]);
      AddUnitsPack(t, chunk, AddUnit(t, chunk, false, p, units[0]), units[1..]);
    }
  }

  lemma FlushedPacks(p: Pieces, chunk: nat)
    requires Packing(p, chunk)
    ensures Packed(Flushed(p).done, chunk)
  {
    StripTrimmed(p.open);
    var done := Flushed(p).done;
    forall i | 0 < i < |done| ensures TooLong(done[i - 1], done[i], chunk) {
      if i < |p.done| { assert TooLong(p.done[i - 1], p.done[i], chunk); }
    }
  }

  /** Without flushing, the sentences of a line are collected into segments of which no two neighbours would fit into
      one. */
  lemma SentencesArePacked(t: Tables, chunk: nat, line: string)
    requires Short(Units(t, line), chunk)
    ensures Packed(Flushed(AddUnits(t, chunk, false, Pieces([], ""), Units(t, line))).done, chunk)
  {
    SentencesKeepTheText(t, line);
    AddUnitsPack(t, chunk, Pieces([], ""), Units(t, line));
    FlushedPacks(AddUnits(t, chunk, false, Pieces([], ""), Units(t, line)), chunk);
  }

  /** Under the policy that joins all lines, this holds of whole paragraphs. */
  lemma ParagraphsArePacked(t: Tables, chunk: nat, paragraph: string)
    requires var lines := Lines(paragraph); lines != [] ==> Short(Units(t, JoinFrom(t, "", lines)), chunk)
    ensures Packed(AddParagraph(t, chunk, Space, false, Pieces([], ""), paragraph).done, chunk)
  {
    var lines := Lines(paragraph);
    if lines != [] {
      var line := JoinFrom(t, "", lines);
      var p := AddUnits(t, chunk, false, Pieces([], ""), Units(t, line));
      SentencesArePacked(t, chunk, line);
      assert Logical(t, Space, chunk, lines) == [line] && [line][1..] == [];
      var start := Pieces([], "");
      assert AddLines(t, chunk, Space, false, start, [line]) == AddLine(t, chunk, Space, false, start, line);
      assert Strip("") == "" && Flushed(Flushed(p)) == Flushed(p);
    }
  }
}
